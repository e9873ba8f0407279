/** The outbox relay: timer ticks, the running flag, pool tasks that scan, publish and mark, with
    exceptions at every call and process crashes at any time. */
module Relay {
  import opened Prelude

  const BATCH_LIMIT := 200
  const MAX_RETRIES := 8
  const BASE_BACKOFF := 5

  datatype Status = Waiting | Acked | GivenUp
  /** closedAt is history: when the row left Waiting. */
  datatype Row = Row(status: Status, retryCount: nat, nextRetry: int, insertedAt: int, closedAt: int)
  datatype Entry = Entry(id: nat, retryCount: nat)

  /** A task submitted to the pool, one going through its batch, or one that has a publish result to record. */
  datatype Task = Submitted | Publishing(batch: seq<Entry>, i: nat) | Marking(batch: seq<Entry>, i: nat, ok: bool)

  /** tries, failures and clean are history: publishes and failed publishes per message, and whether
      no exception and no crash has happened yet. */
  datatype State = State(rows: map<nat, Row>, running: bool, tasks: map<nat, Task>, now: int,
                         tries: map<nat, nat>, failures: map<nat, nat>, clean: bool)

  datatype Action =
    | Store(ids: set<nat>) | Tick(seconds: nat)
    | Timer(t: nat) | SubmitRefused | Scan(t: nat) | ScanThrows(t: nat)
    | Publish(t: nat, ok: bool) | PublishThrows(t: nat) | Mark(t: nat) | MarkThrows(t: nat) | Finish(t: nat)
    | Crash

  function Pow2(n: nat): nat { if n == 0 then 1 else 2 * Pow2(n - 1) }

  predicate Due(r: Row, now: int) { r.status == Waiting && r.nextRetry <= now }

  /** The pending rows whose time has come, oldest first, at most BATCH_LIMIT of them. */
  function ScanPending(rows: map<nat, Row>, now: int): seq<Entry> {
    var ids := Sorted(set id | id in rows && Due(rows[id], now));
    var n := if |ids| > BATCH_LIMIT then BATCH_LIMIT else |ids|;
    seq(n, i requires 0 <= i < n => Entry(ids[i], RetryCount(rows, ids[i])))
  }

  function RetryCount(rows: map<nat, Row>, id: nat): nat { if id in rows then rows[id].retryCount else 0 }

  function Count(m: map<nat, nat>, id: nat): nat { if id in m then m[id] else 0 }

  predicate Active(s: State, t: nat) { t in s.tasks && !s.tasks[t].Submitted? && s.tasks[t].i < |s.tasks[t].batch| }

  predicate Enabled(s: State, a: Action) {
    match a
    case Store(ids) => forall id :: id in ids ==> id !in s.rows
    case Tick(_) => true
    case Timer(t) => t !in s.tasks
    case SubmitRefused => !s.running
    case Scan(t) => t in s.tasks && s.tasks[t] == Submitted
    case ScanThrows(t) => t in s.tasks && s.tasks[t] == Submitted
    case Publish(t, _) => Active(s, t) && s.tasks[t].Publishing?
    case PublishThrows(t) => Active(s, t) && s.tasks[t].Publishing?
    case Mark(t) => Active(s, t) && s.tasks[t].Marking?
    case MarkThrows(t) => Active(s, t) && s.tasks[t].Marking?
    case Finish(t) => t in s.tasks && s.tasks[t].Publishing? && s.tasks[t].i >= |s.tasks[t].batch|
    case Crash => true
  }

  /** The statement recording a publish result. Only the acknowledgement checks the current status. */
  function Marked(r: Row, scanned: nat, ok: bool, now: int): Row {
    if ok then (if r.status == Waiting then r.(status := Acked, closedAt := now) else r)
    else if scanned + 1 >= MAX_RETRIES then r.(status := GivenUp, closedAt := now)
    else r.(retryCount := scanned + 1, nextRetry := now + BASE_BACKOFF * Pow2(scanned))
  }

  // ---- One relay round, without interruption ----

  /** How handling one message ends: with a publish result that is recorded, or with an exception. */
  datatype Ending = Recorded(ok: bool) | Threw

  function Treated(r: Row, e: Entry, ending: Ending, now: int): Row {
    if ending.Threw? then r else Marked(r, e.retryCount, ending.ok, now)
  }

  /** A scan yields rows that are waiting and whose time has come, with their retry counts, in order; the
      first 200 of them: whichever such row is missing comes after all that are there. */
  lemma ScanIsDue(rows: map<nat, Row>, now: int)
    ensures var batch := ScanPending(rows, now);
            && |batch| <= 200
            && (forall j | 0 <= j < |batch| ::
                  && batch[j].id in rows && rows[batch[j].id].status == Waiting && rows[batch[j].id].nextRetry <= now
                  && batch[j].retryCount == rows[batch[j].id].retryCount)
            && (forall j, k :: 0 <= j < k < |batch| ==> batch[j].id < batch[k].id)
            && (forall id | id in rows && rows[id].status == Waiting && rows[id].nextRetry <= now ::
                  InBatch(batch, id) || (|batch| == 200 && forall j :: 0 <= j < 200 ==> batch[j].id < id))
  {
    var due := set id | id in rows && Due(rows[id], now);
    SortedKeys(due);
    var batch := ScanPending(rows, now);
    forall j | 0 <= j < |batch|
      ensures batch[j].id in rows && Due(rows[batch[j].id], now) && batch[j].retryCount == rows[batch[j].id].retryCount
    {
      assert Sorted(due)[j] in due;
    }
    forall id | id in due
      ensures InBatch(batch, id) || (|batch| == 200 && forall j :: 0 <= j < 200 ==> batch[j].id < id)
    {
      var i :| 0 <= i < |Sorted(due)| && Sorted(due)[i] == id;
      if i < |batch| { assert batch[i].id == id; }
    }
  }

  lemma ScanIsBatch(rows: map<nat, Row>, now: int)
    ensures var batch := ScanPending(rows, now);
            && |batch| <= BATCH_LIMIT && (forall j :: 0 <= j < |batch| ==> batch[j].id in rows)
            && (forall j, k :: 0 <= j < k < |batch| ==> batch[j].id != batch[k].id)
  {
    hide ScanPending;
    ScanIsDue(rows, now);
  }

  predicate InBatch(batch: seq<Entry>, id: nat) { exists j :: 0 <= j < |batch| && batch[j].id == id }

  /** Confirmed publishes, and failures of messages that have failed seven times before, among the first n. */
  function Acks(endings: seq<Ending>, n: nat): nat
    requires n <= |endings|
  {
    if n == 0 then 0 else Acks(endings, n - 1) + (if endings[n - 1] == Recorded(true) then 1 else 0)
  }

  function LastFailures(batch: seq<Entry>, endings: seq<Ending>, n: nat): nat
    requires n <= |batch| && n <= |endings|
  {
    if n == 0 then 0
    else
      LastFailures(batch, endings, n - 1)
      + (if endings[n - 1] == Recorded(false) && batch[n - 1].retryCount >= 7 then 1 else 0)
  }

  class MessageRelayTask {
    var rows: map<nat, Row>

    constructor (rows: map<nat, Row>)
      ensures this.rows == rows
    {
      this.rows := rows;
    }

    /** Each scanned message is treated once, by its own ending and at its own time; one that throws
        is left as it was and does not stop the others, and no other row is touched. */
    method RelayRound(now: int, endings: seq<Ending>, clock: seq<int>) returns (sent: nat, retried: nat, givenUp: nat)
      requires |endings| >= BATCH_LIMIT && |clock| >= BATCH_LIMIT
      modifies this
      ensures rows.Keys == old(rows).Keys
      ensures var batch := ScanPending(old(rows), now);
              && sent + retried + givenUp == |batch| <= BATCH_LIMIT
              && sent == Acks(endings, |batch|) && givenUp == LastFailures(batch, endings, |batch|)
              && (forall j | 0 <= j < |batch| :: batch[j].id in rows
                    && rows[batch[j].id] == Treated(old(rows)[batch[j].id], batch[j], endings[j], clock[j]))
              && (forall id :: id in rows && !InBatch(batch, id) ==> rows[id] == old(rows)[id])
    {
      hide ScanPending, Marked;
      ScanIsBatch(rows, now);
      var batch := ScanPending(rows, now);
      sent, retried, givenUp := 0, 0, 0;
      for i := 0 to |batch|
        invariant sent + retried + givenUp == i
        invariant sent == Acks(endings, i) && givenUp == LastFailures(batch, endings, i)
        invariant rows.Keys == old(rows).Keys
        invariant forall j | 0 <= j < i ::
                    rows[batch[j].id] == Treated(old(rows)[batch[j].id], batch[j], endings[j], clock[j])
        invariant forall j :: i <= j < |batch| ==> rows[batch[j].id] == old(rows)[batch[j].id]
        invariant forall id :: id in rows && !InBatch(batch, id) ==> rows[id] == old(rows)[id]
      {
        var e := batch[i];
        match endings[i] {
          case Threw => retried := retried + 1;
          case Recorded(ok) =>
            rows := rows[e.id := Marked(rows[e.id], e.retryCount, ok, clock[i])];
            if ok {
              sent := sent + 1;
            } else if e.retryCount + 1 >= MAX_RETRIES {
              givenUp := givenUp + 1;
            } else {
              retried := retried + 1;
            }
        }
      }
    }
  }

  function Next(s: State, a: Action): State
    requires Enabled(s, a)
  {
    match a
    case Store(ids) => s.(rows := s.rows + (map id | id in ids :: Row(Waiting, 0, s.now, s.now, s.now)))
    case Tick(d) => s.(now := s.now + d)
    case Timer(t) => if s.running then s else s.(running := true, tasks := s.tasks[t := Submitted])
    case SubmitRefused => s.(running := true, clean := false)
    case Scan(t) => s.(tasks := s.tasks[t := Publishing(ScanPending(s.rows, s.now), 0)])
    case ScanThrows(t) => s.(tasks := s.tasks - {t}, clean := false)
    case Publish(t, ok) =>
      var task := s.tasks[t];
      var id := task.batch[task.i].id;
      s.(tasks := s.tasks[t := Marking(task.batch, task.i, ok)],
         tries := s.tries[id := Count(s.tries, id) + 1],
         failures := if ok then s.failures else s.failures[id := Count(s.failures, id) + 1])
    case PublishThrows(t) =>
      var task := s.tasks[t];
      var id := task.batch[task.i].id;
      s.(tasks := s.tasks[t := Publishing(task.batch, task.i + 1)],
         tries := s.tries[id := Count(s.tries, id) + 1], clean := false)
    case Mark(t) =>
      var task := s.tasks[t];
      var e := task.batch[task.i];
      var rows := if e.id in s.rows then s.rows[e.id := Marked(s.rows[e.id], e.retryCount, task.ok, s.now)] else s.rows;
      s.(tasks := s.tasks[t := Publishing(task.batch, task.i + 1)], rows := rows)
    case MarkThrows(t) =>
      var task := s.tasks[t];
      s.(tasks := s.tasks[t := Publishing(task.batch, task.i + 1)], clean := false)
    case Finish(t) => s.(tasks := s.tasks - {t}, running := false)
    case Crash => s.(tasks := map[], running := false, clean := false)
  }

  // ---- Invariant ----

  predicate SingleFlight(s: State) {
    && (forall t, u | t in s.tasks && u in s.tasks :: t == u)
    && (s.tasks != map[] ==> s.running)
  }

  /** What a scanned entry still says about its row. */
  predicate Current(s: State, e: Entry) {
    e.id in s.rows && Due(s.rows[e.id], s.now) && s.rows[e.id].retryCount == e.retryCount
  }

  predicate TaskOk(s: State, task: Task) {
    task.Submitted? ||
    (&& (forall j, k :: 0 <= j < k < |task.batch| ==> task.batch[j].id != task.batch[k].id)
     && (forall j :: task.i <= j < |task.batch| ==> Current(s, task.batch[j]))
     && (task.Marking? ==> task.i < |task.batch|))
  }

  predicate TasksOk(s: State) { forall t :: t in s.tasks ==> TaskOk(s, s.tasks[t]) }

  predicate Records(task: Task, id: nat) { task.Marking? && task.i < |task.batch| && task.batch[task.i].id == id }

  /** A publish of this message succeeded or failed and is not recorded yet. */
  predicate InDoubt(s: State, id: nat) {
    exists t :: t in s.tasks && Records(s.tasks[t], id)
  }

  predicate FailedInDoubt(s: State, id: nat) {
    exists t :: t in s.tasks && Records(s.tasks[t], id) && !s.tasks[t].ok
  }

  function Waited(n: nat): int { BASE_BACKOFF * (Pow2(n) - 1) }

  /** The longest a row with n recorded failures still has to wait. */
  function Pause(n: nat): int { if n == 0 then 0 else BASE_BACKOFF * Pow2(n - 1) }

  predicate RowOk(s: State, id: nat)
    requires id in s.rows
  {
    var r := s.rows[id];
    && Count(s.failures, id) <= Count(s.tries, id)
    && r.insertedAt <= s.now && r.retryCount < MAX_RETRIES
    && match r.status
       case Waiting =>
         && r.nextRetry >= r.insertedAt + Waited(r.retryCount)
         && r.nextRetry <= s.now + Pause(r.retryCount)
         && Count(s.failures, id) >= r.retryCount + (if FailedInDoubt(s, id) then 1 else 0)
         && (s.clean ==> Count(s.tries, id) == r.retryCount + (if InDoubt(s, id) then 1 else 0))
       case Acked => s.clean ==> Count(s.tries, id) <= MAX_RETRIES
       case GivenUp =>
         && Count(s.failures, id) >= MAX_RETRIES && r.closedAt >= r.insertedAt + Waited(MAX_RETRIES - 1)
         && (s.clean ==> Count(s.tries, id) == MAX_RETRIES)
  }

  ghost predicate RowsOk(s: State) {
    && (forall id :: id in s.rows ==> RowOk(s, id))
    && (forall id :: id !in s.rows ==> Count(s.tries, id) == 0 && Count(s.failures, id) == 0)
  }

  ghost predicate Inv(s: State) { SingleFlight(s) && TasksOk(s) && RowsOk(s) }

  lemma ScanIsCurrent(s: State)
    ensures TaskOk(s, Publishing(ScanPending(s.rows, s.now), 0))
  {
    hide ScanPending;
    ScanIsDue(s.rows, s.now);
  }

  lemma FlightKept(s: State, a: Action)
    requires SingleFlight(s) && Enabled(s, a)
    ensures SingleFlight(Next(s, a))
  {
  }

  /** An entry stays current as long as its own row is not touched and time does not run back. */
  lemma TasksKept(s: State, a: Action)
    requires SingleFlight(s) && TasksOk(s) && Enabled(s, a)
    ensures TasksOk(Next(s, a))
  {
    hide ScanPending;
    var s' := Next(s, a);
    if a.Scan? { ScanIsCurrent(s); }
    forall t | t in s'.tasks ensures TaskOk(s', s'.tasks[t]) {
      assert t in s.tasks ==> TaskOk(s, s.tasks[t]);
      if a.Mark? { assert t == a.t; }
    }
  }

  lemma NoDoubt(s: State, id: nat)
    requires TasksOk(s) && id !in s.rows
    ensures !InDoubt(s, id) && !FailedInDoubt(s, id)
  {
  }

  lemma SameDoubt(s: State, s': State, id: nat)
    requires forall t :: t in s.tasks && s.tasks[t].Marking? ==> t in s'.tasks && s'.tasks[t] == s.tasks[t]
    requires forall t :: t in s'.tasks && s'.tasks[t].Marking? ==> t in s.tasks && s'.tasks[t] == s.tasks[t]
    ensures InDoubt(s', id) <==> InDoubt(s, id)
    ensures FailedInDoubt(s', id) <==> FailedInDoubt(s, id)
  {
  }

  /** Steps that neither publish nor record leave every row's account as it was. */
  lemma RowsQuiet(s: State, a: Action)
    requires TasksOk(s) && RowsOk(s) && Enabled(s, a)
    requires a.Tick? || a.Timer? || a.SubmitRefused? || a.Scan? || a.ScanThrows? || a.Finish?
    ensures RowsOk(Next(s, a))
  {
    hide ScanPending, InDoubt, FailedInDoubt, Waited, Pause;
    var s' := Next(s, a);
    forall id | id in s'.rows ensures RowOk(s', id) {
      assert RowOk(s, id);
      SameDoubt(s, s', id);
    }
  }

  lemma RowsStored(s: State, a: Action)
    requires TasksOk(s) && RowsOk(s) && Enabled(s, a) && a.Store?
    ensures RowsOk(Next(s, a))
  {
    hide InDoubt, FailedInDoubt;
    var s' := Next(s, a);
    forall id | id in s'.rows ensures RowOk(s', id) {
      SameDoubt(s, s', id);
      if id in a.ids { NoDoubt(s, id); } else { assert RowOk(s, id); }
    }
  }

  lemma RowsCrash(s: State, a: Action)
    requires RowsOk(s) && a == Crash
    ensures RowsOk(Next(s, a))
  {
    hide Waited, Pause;
    forall id | id in s.rows ensures RowOk(Next(s, a), id) { assert RowOk(s, id); }
  }

  lemma OnlyTask(s: State, t: nat, id: nat)
    requires SingleFlight(s) && t in s.tasks
    ensures InDoubt(s, id) <==> Records(s.tasks[t], id)
    ensures FailedInDoubt(s, id) <==> InDoubt(s, id) && !s.tasks[t].ok
  {
    if InDoubt(s, id) {
      var u :| u in s.tasks && Records(s.tasks[u], id);
      assert u == t;
    }
  }

  lemma RowsPublish(s: State, a: Action)
    requires SingleFlight(s) && TasksOk(s) && RowsOk(s) && Enabled(s, a) && (a.Publish? || a.PublishThrows?)
    ensures RowsOk(Next(s, a))
  {
    hide InDoubt, FailedInDoubt, Waited, Pause;
    var s' := Next(s, a);
    FlightKept(s, a);
    assert TaskOk(s, s.tasks[a.t]);
    forall id | id in s'.rows ensures RowOk(s', id) {
      assert RowOk(s, id);
      OnlyTask(s, a.t, id);
      OnlyTask(s', a.t, id);
    }
  }

  lemma Doubling(n: nat)
    ensures Waited(n) + BASE_BACKOFF * Pow2(n) == Waited(n + 1) && BASE_BACKOFF * Pow2(n) == Pause(n + 1)
  {
  }

  lemma RowsMark(s: State, a: Action)
    requires SingleFlight(s) && TasksOk(s) && RowsOk(s) && Enabled(s, a) && (a.Mark? || a.MarkThrows?)
    ensures RowsOk(Next(s, a))
  {
    hide InDoubt, FailedInDoubt, Waited, Pause;
    var s' := Next(s, a);
    FlightKept(s, a);
    var e := s.tasks[a.t].batch[s.tasks[a.t].i];
    assert TaskOk(s, s.tasks[a.t]) && Current(s, e);
    Doubling(e.retryCount);
    forall id | id in s'.rows ensures RowOk(s', id) {
      assert RowOk(s, id);
      OnlyTask(s, a.t, id);
      OnlyTask(s', a.t, id);
    }
  }

  lemma NextKeeps(s: State, a: Action)
    requires Inv(s) && Enabled(s, a)
    ensures Inv(Next(s, a))
  {
    hide SingleFlight, TasksOk, RowsOk, Next, Enabled;
    FlightKept(s, a);
    TasksKept(s, a);
    match a {
      case Store(_) => RowsStored(s, a);
      case Publish(_, _) => RowsPublish(s, a);
      case PublishThrows(_) => RowsPublish(s, a);
      case Mark(_) => RowsMark(s, a);
      case MarkThrows(_) => RowsMark(s, a);
      case Crash => RowsCrash(s, a);
      case _ => RowsQuiet(s, a);
    }
  }

  /** A row that left Waiting never changes again, although recording a failure checks nothing. */
  lemma ClosedIsFinal(s: State, a: Action, id: nat)
    requires Inv(s) && Enabled(s, a) && id in s.rows && s.rows[id].status != Waiting
    ensures id in Next(s, a).rows && Next(s, a).rows[id] == s.rows[id]
  {
    hide RowsOk, ScanPending;
    if a.Mark? { assert TaskOk(s, s.tasks[a.t]); }
  }

  const Start: State := State(map[], false, map[], 0, map[], map[], true)

  function After(run: seq<Action>): Option<State> {
    if run == [] then Some(Start)
    else
      var prev := After(run[..|run|-1]);
      if prev.Some? && Enabled(prev.value, run[|run|-1]) then Some(Next(prev.value, run[|run|-1])) else None
  }

  lemma {:induction false} Invariant(run: seq<Action>)
    requires After(run).Some?
    ensures Inv(After(run).value)
  {
    hide Next, Enabled, Inv;
    if run == [] {
      StartInv();
    } else {
      Invariant(run[..|run|-1]);
      NextKeeps(After(run[..|run|-1]).value, run[|run|-1]);
    }
  }

  lemma StartInv()
    ensures Inv(Start)
  {
  }

  lemma PauseBound(n: nat)
    requires n <= 7
    ensures Pause(n) <= 320
  {
    assert Pow2(3) == 8;
    if n > 0 { Pow2Grows(n - 1, 6); }
  }

  lemma {:induction false} Pow2Grows(a: nat, b: nat)
    requires a <= b
    ensures Pow2(a) <= Pow2(b)
  {
    if a < b { Pow2Grows(a, b - 1); }
  }

  /** For every run: at most one relay is in flight; a row has been retried at most seven times; a
      waiting one is due again after at most 5 * 2^6 seconds; giving up takes at least eight failed
      publishes and 635 seconds; and without exceptions or crashes no message is published more than
      eight times. */
  lemma RelayGuarantees(run: seq<Action>, s: State, t: nat, u: nat, id: nat)
    requires After(run) == Some(s) && id in s.rows
    ensures t in s.tasks && u in s.tasks ==> t == u
    ensures s.rows[id].retryCount <= 7
    ensures s.rows[id].status == Waiting ==> s.rows[id].nextRetry <= s.now + 320
    ensures s.rows[id].status == GivenUp ==>
              Count(s.failures, id) >= 8 && s.rows[id].closedAt >= s.rows[id].insertedAt + 635
    ensures s.clean ==> Count(s.tries, id) <= 8
  {
    hide After, TasksOk, InDoubt, FailedInDoubt;
    Invariant(run);
    assert RowOk(s, id);
    if s.rows[id].status == Waiting { PauseBound(s.rows[id].retryCount); }
    assert Pow2(3) == 8;
    assert Pow2(7) == 128;
  }

  lemma {:induction false} LastStep(run: seq<Action>, more: seq<Action>)
    requires more != [] && After(run + more).Some?
    ensures var front := After(run + more[..|more|-1]);
            && front.Some? && Inv(front.value) && Enabled(front.value, more[|more|-1])
            && After(run + more) == Some(Next(front.value, more[|more|-1]))
  {
    hide Inv, Next, Enabled;
    assert (run + more)[..|run + more|-1] == run + more[..|more|-1];
    Invariant(run + more[..|more|-1]);
  }

  /** A row that is acked or given up is the same after every continuation of the run. */
  lemma {:induction false} ClosedForever(run: seq<Action>, more: seq<Action>, id: nat)
    requires After(run).Some? && After(run + more).Some?
    requires id in After(run).value.rows && After(run).value.rows[id].status != Waiting
    ensures id in After(run + more).value.rows && After(run + more).value.rows[id] == After(run).value.rows[id]
    decreases |more|
  {
    hide Inv, Next, Enabled;
    if more == [] {
      assert run + more == run;
    } else {
      LastStep(run, more);
      ClosedForever(run, more[..|more|-1], id);
      ClosedIsFinal(After(run + more[..|more|-1]).value, more[|more|-1], id);
    }
  }

  // ---- When the running flag is lost ----

  /** The flag is set and there is no task to clear it. */
  predicate Stuck(s: State) { s.running && s.tasks == map[] }

  /** The relay gets stuck by a scan that throws and by a refused submit and by nothing else, and gets
      unstuck by nothing but a restart of the process. */
  lemma StuckExactly(s: State, a: Action)
    requires SingleFlight(s) && Enabled(s, a)
    ensures Stuck(Next(s, a)) <==> (Stuck(s) && a != Crash) || a.ScanThrows? || a.SubmitRefused?
  {
    hide ScanPending, Marked;
  }

  lemma StuckKeeps(s: State, a: Action)
    requires Stuck(s) && Enabled(s, a) && a != Crash
    ensures Next(s, a).tries == s.tries && Next(s, a).failures == s.failures
    ensures forall id :: id in s.rows ==> id in Next(s, a).rows && Next(s, a).rows[id] == s.rows[id]
  {
    hide ScanPending, Marked;
  }

  /** Once stuck, in every continuation without a restart nothing is published and no stored row changes. */
  lemma {:induction false} StuckUntilCrash(run: seq<Action>, more: seq<Action>)
    requires After(run).Some? && Stuck(After(run).value) && After(run + more).Some? && Crash !in more
    ensures var s, s' := After(run).value, After(run + more).value;
            && Stuck(s') && s'.tries == s.tries && s'.failures == s.failures
            && forall id :: id in s.rows ==> id in s'.rows && s'.rows[id] == s.rows[id]
    decreases |more|
  {
    hide Next, Enabled, Stuck, TasksOk, RowsOk, SingleFlight;
    if more == [] {
      assert run + more == run;
    } else {
      LastStep(run, more);
      StuckUntilCrash(run, more[..|more|-1]);
      StuckExactly(After(run + more[..|more|-1]).value, more[|more|-1]);
      StuckKeeps(After(run + more[..|more|-1]).value, more[|more|-1]);
    }
  }

  predicate LosesFlag(a: Action) { a.ScanThrows? || a.SubmitRefused? }

  predicate LostAt(run: seq<Action>, i: nat) { i < |run| && LosesFlag(run[i]) && Crash !in run[i + 1..] }

  /** Exactly when a run ends stuck: a scan threw or a submit was refused, with no restart after it. */
  lemma {:induction false} StuckIff(run: seq<Action>)
    requires After(run).Some?
    ensures Stuck(After(run).value) <==> exists i :: LostAt(run, i)
  {
    hide Next, Enabled, Stuck, TasksOk, RowsOk, SingleFlight;
    if run == [] {
      NotStuckAtStart();
    } else {
      var front, a := run[..|run|-1], run[|run|-1];
      Invariant(front);
      StuckExactly(After(front).value, a);
      StuckIff(front);
      forall i: nat | i < |front| ensures LostAt(run, i) <==> LostAt(front, i) && a != Crash {
        assert run[i + 1..] == front[i + 1..] + [a];
      }
      assert LostAt(run, |front|) <==> LosesFlag(a);
    }
  }

  lemma NotStuckAtStart()
    ensures !Stuck(Start)
  {
  }

  /** What recording a result does to the row, in any reachable state: acknowledged, given up at the eighth
      failure, or one retry more and due again after 5, 10, 20, 40, 80, 160 and 320 seconds. */
  lemma RecordingTells(run: seq<Action>, s: State, t: nat)
    requires After(run) == Some(s) && Enabled(s, Mark(t))
    ensures var id, k := s.tasks[t].batch[s.tasks[t].i].id, s.tasks[t].batch[s.tasks[t].i].retryCount;
            && id in s.rows && s.rows[id].status == Waiting && s.rows[id].retryCount == k <= 7
            && var r, r' := s.rows[id], Next(s, Mark(t)).rows[id];
               if s.tasks[t].ok then r' == r.(status := Acked, closedAt := s.now)
               else if k == 7 then r' == r.(status := GivenUp, closedAt := s.now)
               else r' == r.(retryCount := k + 1, nextRetry := s.now + [5, 10, 20, 40, 80, 160, 320][k])
    ensures forall id | id in s.rows && id != s.tasks[t].batch[s.tasks[t].i].id ::
              Next(s, Mark(t)).rows[id] == s.rows[id]
  {
    hide After, InDoubt, FailedInDoubt, Waited, Pause;
    Invariant(run);
    var e := s.tasks[t].batch[s.tasks[t].i];
    assert TaskOk(s, s.tasks[t]) && Current(s, e) && RowOk(s, e.id);
    Powers();
  }

  lemma Powers()
    ensures Pow2(0) == 1 && Pow2(1) == 2 && Pow2(2) == 4 && Pow2(3) == 8
    ensures Pow2(4) == 16 && Pow2(5) == 32 && Pow2(6) == 64
  {
    assert Pow2(3) == 8;
  }
}
