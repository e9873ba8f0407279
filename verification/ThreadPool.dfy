/** The worker pool as interleaved steps of any number of workers and submitters and one destructor,
    with an explicit mutex and condition variable. Evaluating the wait predicate and acting on it are
    separate steps: only the mutex keeps them together. Wakeups may be spurious. */
module ThreadPool {
  import opened Prelude

  datatype Worker = Top | Holding | AboutToWait | AboutToTake | Waiting | Woken | Running(task: nat) | Done
  /** NoTask is a call with an empty task, Refused one that came after the stop. */
  datatype Submitter = Calling | InSubmit | Notifying | Accepted | Refused | NoTask
  datatype Destructor = Alive | Stopping | NotifyAll | Joining | Joined
  datatype Owner = Nobody | WorkerLock(w: nat) | SubmitLock(t: nat) | DestructorLock

  /** A submit call and the task it carries share one number. accepted, dequeued and finished are
      history: tasks in the order they were pushed, popped and completed. */
  datatype Pool = Pool(workers: map<nat, Worker>, submits: map<nat, Submitter>, destructor: Destructor,
                       mutex: Owner, queue: seq<nat>, stopped: bool,
                       accepted: seq<nat>, dequeued: seq<nat>, finished: seq<nat>)

  datatype Action =
    | Submit(t: nat) | SubmitEmpty(t: nat) | SubmitLocks(t: nat) | Push(t: nat) | NotifyOne(t: nat, woken: Option<nat>)
    | WorkerLocks(w: nat) | Test(w: nat) | Sleep(w: nat) | Take(w: nat) | Finish(w: nat) | Spurious(w: nat)
    | DestroyLocks | Stop | WakeAll | Join

  predicate IsWorker(s: Pool, w: nat, pc: Worker) { w in s.workers && s.workers[w] == pc }
  predicate IsSubmit(s: Pool, t: nat, pc: Submitter) { t in s.submits && s.submits[t] == pc }
  predicate Ready(s: Pool) { s.stopped || s.queue != [] }

  predicate Enabled(s: Pool, a: Action) {
    match a
    case Submit(t) => t !in s.submits
    case SubmitEmpty(t) => t !in s.submits
    case SubmitLocks(t) => IsSubmit(s, t, Calling) && s.mutex == Nobody
    case Push(t) => IsSubmit(s, t, InSubmit)
    case NotifyOne(t, woken) =>
      && IsSubmit(s, t, Notifying)
      && (if woken.Some? then IsWorker(s, woken.value, Waiting)
          else forall w :: w in s.workers ==> s.workers[w] != Waiting)
    case WorkerLocks(w) => (IsWorker(s, w, Top) || IsWorker(s, w, Woken)) && s.mutex == Nobody
    case Test(w) => IsWorker(s, w, Holding)
    case Sleep(w) => IsWorker(s, w, AboutToWait)
    case Take(w) => IsWorker(s, w, AboutToTake) && s.queue != []
    case Finish(w) => w in s.workers && s.workers[w].Running?
    case Spurious(w) => IsWorker(s, w, Waiting)
    case DestroyLocks => s.destructor == Alive && s.mutex == Nobody
    case Stop => s.destructor == Stopping
    case WakeAll => s.destructor == NotifyAll
    case Join => s.destructor == Joining && forall w :: w in s.workers ==> s.workers[w] == Done
  }

  function Set(s: Pool, w: nat, pc: Worker): Pool { s.(workers := s.workers[w := pc]) }

  function Woke(pc: Worker): Worker { if pc == Waiting then Woken else pc }

  function Next(s: Pool, a: Action): Pool
    requires Enabled(s, a)
  {
    match a
    case Submit(t) => s.(submits := s.submits[t := Calling])
    case SubmitEmpty(t) => s.(submits := s.submits[t := NoTask])
    case SubmitLocks(t) => s.(submits := s.submits[t := InSubmit], mutex := SubmitLock(t))
    case Push(t) =>
      if s.stopped then s.(submits := s.submits[t := Refused], mutex := Nobody)
      else s.(submits := s.submits[t := Notifying], mutex := Nobody,
              queue := s.queue + [t], accepted := s.accepted + [t])
    case NotifyOne(t, woken) =>
      var s' := s.(submits := s.submits[t := Accepted]);
      if woken.Some? then Set(s', woken.value, Woken) else s'
    case WorkerLocks(w) => Set(s, w, Holding).(mutex := WorkerLock(w))
    case Test(w) =>
      if !Ready(s) then Set(s, w, AboutToWait)
      else if s.queue == [] then Set(s, w, Done).(mutex := Nobody)
      else Set(s, w, AboutToTake)
    case Sleep(w) => Set(s, w, Waiting).(mutex := Nobody)
    case Take(w) =>
      Set(s, w, Running(s.queue[0])).(mutex := Nobody, queue := s.queue[1..], dequeued := s.dequeued + [s.queue[0]])
    case Finish(w) => Set(s, w, Top).(finished := s.finished + [s.workers[w].task])
    case Spurious(w) => Set(s, w, Woken)
    case DestroyLocks => s.(destructor := Stopping, mutex := DestructorLock)
    case Stop => s.(destructor := NotifyAll, stopped := true, mutex := Nobody)
    case WakeAll => s.(destructor := Joining, workers := map w | w in s.workers :: Woke(s.workers[w]))
    case Join => s.(destructor := Joined)
  }

  function Start(workers: set<nat>): Pool {
    Pool(map w | w in workers :: Top, map[], Alive, Nobody, [], false, [], [], [])
  }

  function After(workers: set<nat>, run: seq<Action>): Option<Pool> {
    if run == [] then Some(Start(workers))
    else
      var prev := After(workers, run[..|run|-1]);
      if prev.Some? && Enabled(prev.value, run[|run|-1]) then Some(Next(prev.value, run[|run|-1])) else None
  }

  // ---- The invariant ----

  predicate MutexOk(s: Pool) {
    && (forall w :: w in s.workers ==>
      (s.workers[w] in {Holding, AboutToWait, AboutToTake} <==> s.mutex == WorkerLock(w)))
    && (forall t :: t in s.submits ==> (s.submits[t] == InSubmit <==> s.mutex == SubmitLock(t)))
    && (s.destructor == Stopping <==> s.mutex == DestructorLock)
    && (s.mutex.WorkerLock? ==> s.mutex.w in s.workers)
    && (s.mutex.SubmitLock? ==> s.mutex.t in s.submits)
  }

  predicate StopOk(s: Pool) {
    && (s.stopped <==> s.destructor in {NotifyAll, Joining, Joined})
    && (s.destructor in {Joining, Joined} ==> forall w :: w in s.workers ==> s.workers[w] != Waiting)
    && (s.destructor == Joined ==> forall w :: w in s.workers ==> s.workers[w] == Done)
  }

  /** What a worker found out under the mutex still holds when it acts on it. */
  predicate TestsOk(s: Pool) {
    && (forall w :: w in s.workers && s.workers[w] == Done ==> s.stopped && s.queue == [])
    && (forall w :: w in s.workers && s.workers[w] == AboutToWait ==> !s.stopped && s.queue == [])
    && (forall w :: w in s.workers && s.workers[w] == AboutToTake ==> s.queue != [])
  }

  predicate ShutdownOk(s: Pool) { StopOk(s) && TestsOk(s) }

  predicate Distinct(ts: seq<nat>) { forall i, j :: 0 <= i < j < |ts| ==> ts[i] != ts[j] }

  predicate RunBy(s: Pool, t: nat) { exists w :: w in s.workers && s.workers[w] == Running(t) }

  /** Every accepted task is queued, running or finished, exactly once, in the order of acceptance. */
  predicate TasksOk(s: Pool) {
    && s.accepted == s.dequeued + s.queue
    && Distinct(s.accepted) && Distinct(s.finished)
    && (forall t :: t in s.accepted ==> t in s.submits && s.submits[t] in {Notifying, Accepted})
    && (forall t :: t in s.finished ==> t in s.dequeued && !RunBy(s, t))
    && (forall w :: w in s.workers && s.workers[w].Running? ==> s.workers[w].task in s.dequeued)
    && (forall w, v | w in s.workers && v in s.workers && w != v && s.workers[w].Running? ::
          s.workers[v] != s.workers[w])
    && (forall i :: 0 <= i < |s.dequeued| ==> s.dequeued[i] in s.finished || RunBy(s, s.dequeued[i]))
  }

  predicate Awake(pc: Worker) { pc in {Top, Woken, Holding, AboutToTake} }
  function AwakeSet(s: Pool): set<nat> { set w | w in s.workers && Awake(s.workers[w]) }
  function PendingSet(s: Pool): set<nat> { set t | t in s.submits && s.submits[t] == Notifying }
  predicate SomeWaiting(s: Pool) { exists w :: w in s.workers && s.workers[w] == Waiting }

  /** No lost wakeup: while some worker sleeps, every queued task has a worker of its own that is
      awake and heading for the queue, or a notification of its own still to be sent. */
  predicate WakeupsOk(s: Pool) { SomeWaiting(s) ==> |s.queue| <= |PendingSet(s)| + |AwakeSet(s)| }

  predicate Inv(s: Pool) { MutexOk(s) && ShutdownOk(s) && TasksOk(s) && WakeupsOk(s) }

  lemma StartInv(workers: set<nat>)
    ensures Inv(Start(workers))
  {
  }

  lemma MutexKept(s: Pool, a: Action)
    requires MutexOk(s) && Enabled(s, a)
    ensures MutexOk(Next(s, a))
  {
  }

  lemma ShutdownKept(s: Pool, a: Action)
    requires MutexOk(s) && ShutdownOk(s) && Enabled(s, a)
    ensures ShutdownOk(Next(s, a))
  {
    hide StopOk, TestsOk;
    StopKept(s, a);
    TestsKept(s, a);
  }

  lemma StopKept(s: Pool, a: Action)
    requires ShutdownOk(s) && Enabled(s, a)
    ensures StopOk(Next(s, a))
  {
  }

  lemma TestsKept(s: Pool, a: Action)
    requires MutexOk(s) && ShutdownOk(s) && Enabled(s, a)
    ensures TestsOk(Next(s, a))
  {
    if IsWorkerStep(a) || a.Spurious? { TestsKeptByWorker(s, a); } else { TestsKeptByOthers(s, a); }
  }

  lemma TestsKeptByWorker(s: Pool, a: Action)
    requires MutexOk(s) && ShutdownOk(s) && Enabled(s, a) && (IsWorkerStep(a) || a.Spurious?)
    ensures TestsOk(Next(s, a))
  {
    hide StopOk;
  }

  lemma TestsKeptByOthers(s: Pool, a: Action)
    requires MutexOk(s) && ShutdownOk(s) && Enabled(s, a) && !IsWorkerStep(a) && !a.Spurious?
    ensures TestsOk(Next(s, a))
  {
  }

  lemma AwakeUpdate(s: Pool, w: nat, pc: Worker)
    requires w in s.workers
    ensures |AwakeSet(Set(s, w, pc))| ==
            |AwakeSet(s)| - (if Awake(s.workers[w]) then 1 else 0) + (if Awake(pc) then 1 else 0)
  {
    var a, b := AwakeSet(s), AwakeSet(Set(s, w, pc));
    assert b == if Awake(pc) then a + {w} else a - {w};
  }

  lemma PendingUpdate(s: Pool, t: nat, pc: Submitter)
    ensures |PendingSet(s.(submits := s.submits[t := pc]))| ==
            |PendingSet(s)| - (if IsSubmit(s, t, Notifying) then 1 else 0) + (if pc == Notifying then 1 else 0)
  {
    var a, b := PendingSet(s), PendingSet(s.(submits := s.submits[t := pc]));
    assert b == if pc == Notifying then a + {t} else a - {t};
  }

  lemma WakeupsKept(s: Pool, a: Action)
    requires MutexOk(s) && ShutdownOk(s) && WakeupsOk(s) && Enabled(s, a)
    ensures WakeupsOk(Next(s, a))
  {
    var s' := Next(s, a);
    match a {
      case Submit(t) => PendingUpdate(s, t, Calling);
      case SubmitEmpty(t) => PendingUpdate(s, t, NoTask);
      case SubmitLocks(t) => PendingUpdate(s, t, InSubmit);
      case Push(t) => PendingUpdate(s, t, s'.submits[t]);
      case NotifyOne(t, woken) =>
        PendingUpdate(s, t, Accepted);
        if woken.Some? { AwakeUpdate(s.(submits := s.submits[t := Accepted]), woken.value, Woken); }
      case WorkerLocks(w) => AwakeUpdate(s, w, Holding);
      case Test(w) => AwakeUpdate(s, w, s'.workers[w]);
      case Sleep(w) => AwakeUpdate(s, w, Waiting);
      case Take(w) => AwakeUpdate(s, w, s'.workers[w]);
      case Finish(w) => AwakeUpdate(s, w, Top);
      case Spurious(w) => AwakeUpdate(s, w, Woken);
      case _ =>
    }
  }

  /** Moving a worker that runs nothing to a place where it runs nothing leaves the tasks alone. */
  lemma IdleMove(s: Pool, s': Pool, w: nat, pc: Worker)
    requires TasksOk(s) && w in s.workers && !s.workers[w].Running? && !pc.Running?
    requires s'.workers == s.workers[w := pc] && s'.queue == s.queue && s'.accepted == s.accepted
    requires s'.dequeued == s.dequeued && s'.finished == s.finished && s'.submits == s.submits
    ensures TasksOk(s')
  {
    forall t ensures RunBy(s', t) <==> RunBy(s, t) {
      if RunBy(s, t) { var v :| v in s.workers && s.workers[v] == Running(t); assert s'.workers[v] == Running(t); }
      if RunBy(s', t) { var v :| v in s'.workers && s'.workers[v] == Running(t); assert s.workers[v] == Running(t); }
    }
  }

  lemma SubmitMove(s: Pool, s': Pool, t: nat, pc: Submitter)
    requires TasksOk(s) && s'.workers == s.workers && s'.queue == s.queue && s'.accepted == s.accepted
    requires s'.dequeued == s.dequeued && s'.finished == s.finished && s'.submits == s.submits[t := pc]
    requires t in s.accepted ==> pc in {Notifying, Accepted}
    ensures TasksOk(s')
  {
    assert forall k :: RunBy(s', k) <==> RunBy(s, k);
  }

  lemma PushTasks(s: Pool, t: nat)
    requires TasksOk(s) && Enabled(s, Push(t))
    ensures TasksOk(Next(s, Push(t)))
  {
    var s' := Next(s, Push(t));
    if s.stopped {
      SubmitMove(s, s', t, Refused);
    } else {
      assert forall k :: RunBy(s', k) <==> RunBy(s, k);
      assert s'.accepted == s'.dequeued + s'.queue;
      assert t !in s.accepted;
    }
  }

  lemma TakeTasks(s: Pool, w: nat)
    requires TasksOk(s) && Enabled(s, Take(w))
    ensures TasksOk(Next(s, Take(w)))
  {
    var s' := Next(s, Take(w));
    var t := s.queue[0];
    var d := |s.dequeued|;
    assert s.accepted[d] == t;
    assert forall i :: 0 <= i < d ==> s.accepted[i] == s.dequeued[i];
    assert s'.accepted == s'.dequeued + s'.queue;
    assert s'.workers[w] == Running(t);
    forall k ensures RunBy(s', k) <==> RunBy(s, k) || k == t {
      if RunBy(s, k) { var v :| v in s.workers && s.workers[v] == Running(k); assert s'.workers[v] == Running(k); }
      if RunBy(s', k) && k != t {
        var v :| v in s'.workers && s'.workers[v] == Running(k);
        assert s.workers[v] == Running(k);
      }
    }
  }

  lemma FinishTasks(s: Pool, w: nat)
    requires TasksOk(s) && Enabled(s, Finish(w))
    ensures TasksOk(Next(s, Finish(w)))
  {
    var s' := Next(s, Finish(w));
    var t := s.workers[w].task;
    assert RunBy(s, t);
    forall k ensures RunBy(s', k) <==> RunBy(s, k) && k != t {
      if RunBy(s, k) && k != t {
        var v :| v in s.workers && s.workers[v] == Running(k);
        assert s'.workers[v] == Running(k);
      }
      if RunBy(s', k) { var v :| v in s'.workers && s'.workers[v] == Running(k); assert s.workers[v] == Running(k); }
    }
    forall i | 0 <= i < |s'.dequeued| ensures s'.dequeued[i] in s'.finished || RunBy(s', s'.dequeued[i]) {
      if s.dequeued[i] == t { assert s'.finished[|s.finished|] == t; }
    }
  }

  lemma WakeAllTasks(s: Pool)
    requires TasksOk(s) && Enabled(s, WakeAll)
    ensures TasksOk(Next(s, WakeAll))
  {
    var s' := Next(s, WakeAll);
    assert forall w | w in s.workers && (s'.workers[w].Running? || s.workers[w].Running?) ::
        s'.workers[w] == s.workers[w];
    forall k ensures RunBy(s', k) <==> RunBy(s, k) {
      if RunBy(s, k) { var v :| v in s.workers && s.workers[v] == Running(k); assert s'.workers[v] == Running(k); }
      if RunBy(s', k) { var v :| v in s'.workers && s'.workers[v] == Running(k); assert s.workers[v] == Running(k); }
    }
  }

  lemma TasksKept(s: Pool, a: Action)
    requires TasksOk(s) && Enabled(s, a)
    ensures TasksOk(Next(s, a))
  {
    hide RunBy, Distinct;
    var s' := Next(s, a);
    match a {
      case Submit(t) => SubmitMove(s, s', t, Calling);
      case SubmitEmpty(t) => SubmitMove(s, s', t, NoTask);
      case SubmitLocks(t) => SubmitMove(s, s', t, InSubmit);
      case Push(t) => PushTasks(s, t);
      case NotifyOne(t, woken) =>
        var m := s.(submits := s.submits[t := Accepted]);
        SubmitMove(s, m, t, Accepted);
        if woken.Some? { IdleMove(m, s', woken.value, Woken); }
      case WorkerLocks(w) => IdleMove(s, s', w, Holding);
      case Test(w) => IdleMove(s, s', w, s'.workers[w]);
      case Sleep(w) => IdleMove(s, s', w, Waiting);
      case Take(w) => TakeTasks(s, w);
      case Finish(w) => FinishTasks(s, w);
      case Spurious(w) => IdleMove(s, s', w, Woken);
      case WakeAll => WakeAllTasks(s);
      case DestroyLocks => SameTasks(s, s');
      case Stop => SameTasks(s, s');
      case Join => SameTasks(s, s');
    }
  }

  lemma SameTasks(s: Pool, s': Pool)
    requires TasksOk(s)
    requires s'.(destructor := s.destructor, mutex := s.mutex, stopped := s.stopped) == s
    ensures TasksOk(s')
  {
    assert forall k :: RunBy(s', k) <==> RunBy(s, k);
  }

  lemma {:induction false} Invariant(workers: set<nat>, run: seq<Action>)
    requires After(workers, run).Some?
    ensures Inv(After(workers, run).value) && After(workers, run).value.workers.Keys == workers
  {
    hide MutexOk, ShutdownOk, TasksOk, WakeupsOk;
    if run == [] {
      StartInv(workers);
    } else {
      Invariant(workers, run[..|run|-1]);
      var prev := After(workers, run[..|run|-1]).value;
      var a := run[|run|-1];
      MutexKept(prev, a);
      ShutdownKept(prev, a);
      TasksKept(prev, a);
      WakeupsKept(prev, a);
    }
  }

  // ---- What every run guarantees ----

  /** Whenever tasks are queued and no notification is on its way, some worker is neither asleep nor
      gone; and as long as anyone sleeps there is one such worker for each queued task. */
  lemma NoLostWakeup(workers: set<nat>, run: seq<Action>, s: Pool)
    requires After(workers, run) == Some(s) && workers != {} && s.queue != [] && PendingSet(s) == {}
    ensures exists w :: w in s.workers && s.workers[w] != Waiting && s.workers[w] != Done
    ensures SomeWaiting(s) ==> |s.queue| <= |AwakeSet(s)|
  {
    hide After, MutexOk, TasksOk;
    Invariant(workers, run);
    if SomeWaiting(s) {
      assert AwakeSet(s) != {};
      var w :| w in AwakeSet(s);
      assert s.workers[w] != Waiting && s.workers[w] != Done;
    } else {
      var w :| w in workers;
      assert w in s.workers && s.workers[w] != Waiting && s.workers[w] != Done;
    }
  }

  /** First in, first out, exactly once: what was dequeued is a prefix of what was accepted, no task
      is dequeued or finished twice, and each dequeued task is finished or running, never both. */
  lemma FifoExactlyOnce(workers: set<nat>, run: seq<Action>, s: Pool, t: nat)
    requires After(workers, run) == Some(s) && t in s.accepted
    ensures s.dequeued <= s.accepted && Distinct(s.accepted) && Distinct(s.finished)
    ensures (t in s.queue) != (t in s.dequeued)
    ensures t in s.dequeued <==> (t in s.finished || RunBy(s, t))
    ensures !(t in s.finished && RunBy(s, t))
  {
    hide After, MutexOk, ShutdownOk, WakeupsOk;
    Invariant(workers, run);
    var k :| 0 <= k < |s.accepted| && s.accepted[k] == t;
    if k < |s.dequeued| { assert s.dequeued[k] == t; } else { assert s.queue[k - |s.dequeued|] == t; }
    if t in s.dequeued { var i :| 0 <= i < |s.dequeued| && s.dequeued[i] == t; assert s.accepted[i] == t; }
    if t in s.queue { var i :| 0 <= i < |s.queue| && s.queue[i] == t; assert s.accepted[|s.dequeued| + i] == t; }
  }

  /** When the destructor's joins are through, every accepted task has been run: exactly if the pool
      had a worker or nothing was ever accepted. */
  lemma ShutdownDrains(workers: set<nat>, run: seq<Action>, s: Pool)
    requires After(workers, run) == Some(s) && s.destructor == Joined
    ensures (forall t :: t in s.accepted ==> t in s.finished) <==> (workers != {} || s.accepted == [])
    ensures workers != {} ==> s.queue == []
  {
    hide After, MutexOk, WakeupsOk;
    Invariant(workers, run);
    if workers != {} {
      var w :| w in workers;
      assert s.workers[w] == Done;
      assert s.accepted == s.dequeued;
      assert forall t :: !RunBy(s, t);
    } else if s.accepted != [] {
      NoWorkerNoTask(workers, run, s);
      assert s.accepted[0] !in s.finished;
    }
  }

  lemma {:induction false} NoWorkerNoTask(workers: set<nat>, run: seq<Action>, s: Pool)
    requires After(workers, run) == Some(s) && workers == {}
    ensures s.workers == map[] && s.dequeued == [] && s.finished == []
  {
    if run != [] {
      NoWorkerNoTask(workers, run[..|run|-1], After(workers, run[..|run|-1]).value);
    }
  }

  // ---- What submit answers ----

  predicate SubmitsOk(s: Pool) {
    forall t :: t in s.submits ==>
      && (s.submits[t] == Refused ==> s.stopped)
      && (s.submits[t] in {Notifying, Accepted} ==> t in s.accepted)
  }

  lemma SubmitsKept(s: Pool, a: Action)
    requires SubmitsOk(s) && Enabled(s, a)
    ensures SubmitsOk(Next(s, a))
  {
    if a.Push? && !s.stopped { assert Next(s, a).accepted[|s.accepted|] == a.t; }
  }

  lemma {:induction false} SubmitsAlwaysOk(workers: set<nat>, run: seq<Action>)
    requires After(workers, run).Some?
    ensures SubmitsOk(After(workers, run).value)
  {
    if run != [] {
      hide Next, Enabled, SubmitsOk;
      SubmitsAlwaysOk(workers, run[..|run|-1]);
      SubmitsKept(After(workers, run[..|run|-1]).value, run[|run|-1]);
    }
  }

  /** In every run: submit returns true exactly for the tasks that were queued, and false only for an
      empty task or once the destructor has set the stop flag. */
  lemma SubmitTellsTruth(workers: set<nat>, run: seq<Action>, s: Pool, t: nat)
    requires After(workers, run) == Some(s) && t in s.submits
    ensures t in s.accepted <==> s.submits[t] in {Notifying, Accepted}
    ensures s.submits[t] == Refused ==> s.stopped && s.destructor in {NotifyAll, Joining, Joined}
  {
    hide After, MutexOk, WakeupsOk;
    Invariant(workers, run);
    SubmitsAlwaysOk(workers, run);
  }

  /** A submit that gets to its push before the stop has its task appended, one after it is refused. */
  lemma PushBeforeStop(s: Pool, t: nat)
    requires Enabled(s, Push(t))
    ensures var s' := Next(s, Push(t));
            if s.stopped then s'.submits[t] == Refused && s'.accepted == s.accepted && s'.queue == s.queue
            else s'.submits[t] == Notifying && s'.accepted == s.accepted + [t] && s'.queue == s.queue + [t]
  {
  }

  // ---- Every accepted task gets its turn, without any shutdown ----

  /** Steps of the workers and of submits and stops under way; no new submit, no spurious wakeup. */
  predicate Inner(a: Action) {
    || a.SubmitLocks? || a.Push? || a.NotifyOne? || a.Stop?
    || a.WorkerLocks? || a.Test? || a.Sleep? || a.Take? || a.Finish?
  }

  predicate Busy(s: Pool) { s.queue != [] || exists w :: w in s.workers && s.workers[w].Running? }

  lemma InnerStep(s: Pool)
    requires Inv(s) && s.workers != map[] && Busy(s)
    ensures exists a :: Inner(a) && Enabled(s, a)
  {
    hide TasksOk;
    if w :| w in s.workers && s.workers[w].Running? {
      assert Inner(Finish(w)) && Enabled(s, Finish(w));
    } else {
      match s.mutex {
        case SubmitLock(t) => assert Inner(Push(t)) && Enabled(s, Push(t));
        case DestructorLock => assert Inner(Stop) && Enabled(s, Stop);
        case WorkerLock(w) =>
          assert Inner(Test(w)) && Inner(Sleep(w)) && Inner(Take(w));
          assert Enabled(s, Test(w)) || Enabled(s, Sleep(w)) || Enabled(s, Take(w));
        case Nobody => FreeStep(s);
      }
    }
  }

  lemma FreeStep(s: Pool)
    requires Inv(s) && s.workers != map[] && s.queue != [] && s.mutex == Nobody
    requires forall w :: w in s.workers ==> !s.workers[w].Running?
    ensures exists a :: Inner(a) && Enabled(s, a)
  {
    hide TasksOk;
    if t :| t in PendingSet(s) {
      var woken := if w :| w in s.workers && s.workers[w] == Waiting then Some(w) else None;
      assert Inner(NotifyOne(t, woken)) && Enabled(s, NotifyOne(t, woken));
    } else {
      assert PendingSet(s) == {};
      var w :| w in s.workers && s.workers[w] != Waiting && s.workers[w] != Done by { AwakeExists(s); }
      assert Inner(WorkerLocks(w)) && Enabled(s, WorkerLocks(w));
    }
  }

  lemma AwakeExists(s: Pool)
    requires ShutdownOk(s) && WakeupsOk(s) && s.workers != map[] && s.queue != [] && PendingSet(s) == {}
    ensures exists w :: w in s.workers && s.workers[w] != Waiting && s.workers[w] != Done
  {
    if SomeWaiting(s) {
      assert AwakeSet(s) != {};
      var w :| w in AwakeSet(s);
      assert s.workers[w] != Waiting && s.workers[w] != Done;
    } else {
      var w :| w in s.workers;
      assert s.workers[w] != Waiting && s.workers[w] != Done;
    }
  }

  function Errand(pc: Submitter): nat {
    match pc case Calling => 20 case InSubmit => 19 case Notifying => 6 case _ => 0
  }

  function Errands(s: Pool): map<nat, int> { map t | t in s.submits :: Errand(s.submits[t]) }

  /** A bound on the inner steps still possible. */
  ghost function Effort(s: Pool): int {
    MapSum(Errands(s)) + 4 * |s.queue| + MapSum(Weights(s)) + (if s.destructor == Stopping then 1 else 0)
  }

  lemma EffortNatural(s: Pool)
    ensures Effort(s) >= 0
  {
    MapSumNonNegative(Errands(s));
    MapSumNonNegative(Weights(s));
  }

  lemma ErrandUpdate(s: Pool, s': Pool, t: nat, pc: Submitter)
    requires t in s.submits && s'.submits == s.submits[t := pc]
    ensures MapSum(Errands(s')) == MapSum(Errands(s)) - Errand(s.submits[t]) + Errand(pc)
  {
    assert Errands(s') == Errands(s)[t := Errand(pc)];
    MapSumUpdate(Errands(s), t, Errand(pc));
  }

  lemma WorkerUpdate(s: Pool, s': Pool, w: nat, pc: Worker)
    requires w in s.workers && s'.workers == s.workers[w := pc]
    ensures MapSum(Weights(s')) == MapSum(Weights(s)) - Weight(s.workers[w]) + Weight(pc)
  {
    assert Weights(s') == Weights(s)[w := Weight(pc)];
    MapSumUpdate(Weights(s), w, Weight(pc));
  }

  lemma SameSums(s: Pool, s': Pool)
    ensures s'.submits == s.submits ==> Errands(s') == Errands(s)
    ensures s'.workers == s.workers ==> Weights(s') == Weights(s)
  {
  }

  lemma InnerUsesEffort(s: Pool, a: Action)
    requires Inner(a) && Enabled(s, a)
    ensures Effort(Next(s, a)) < Effort(s)
  {
    if a.SubmitLocks? || a.Push? || a.NotifyOne? || a.Stop? { OuterUsesEffort(s, a); } else { WorkerUsesEffort(s, a); }
  }

  lemma OuterUsesEffort(s: Pool, a: Action)
    requires (a.SubmitLocks? || a.Push? || a.NotifyOne? || a.Stop?) && Enabled(s, a)
    ensures Effort(Next(s, a)) < Effort(s)
  {
    hide Errands, Weights;
    var s' := Next(s, a);
    SameSums(s, s');
    match a {
      case SubmitLocks(t) => ErrandUpdate(s, s', t, InSubmit);
      case Push(t) => ErrandUpdate(s, s', t, s'.submits[t]);
      case NotifyOne(t, woken) =>
        ErrandUpdate(s, s', t, Accepted);
        if woken.Some? { WorkerUpdate(s, s', woken.value, Woken); }
      case Stop =>
    }
  }

  lemma WorkerUsesEffort(s: Pool, a: Action)
    requires IsWorkerStep(a) && Enabled(s, a)
    ensures Effort(Next(s, a)) < Effort(s)
  {
    hide Errands, Weights;
    var s' := Next(s, a);
    SameSums(s, s');
    match a {
      case WorkerLocks(w) => WorkerUpdate(s, s', w, Holding);
      case Test(w) => WorkerUpdate(s, s', w, s'.workers[w]);
      case Sleep(w) => WorkerUpdate(s, s', w, Waiting);
      case Take(w) => WorkerUpdate(s, s', w, s'.workers[w]);
      case Finish(w) => WorkerUpdate(s, s', w, Top);
    }
  }

  predicate DrainedBy(workers: set<nat>, run: seq<Action>, more: seq<Action>) {
    && (forall i :: 0 <= i < |more| ==> Inner(more[i]))
    && After(workers, run + more).Some?
    && var s := After(workers, run + more).value; s.queue == [] && forall t :: t in s.accepted ==> t in s.finished
  }

  /** From every reachable state of a pool with a worker, letting it run on finishes every accepted task,
      with no help from a shutdown, a new submit or a spurious wakeup. */
  lemma {:induction false} TasksGetDone(workers: set<nat>, run: seq<Action>)
    requires After(workers, run).Some? && workers != {}
    ensures exists more :: DrainedBy(workers, run, more)
    decreases Effort(After(workers, run).value)
  {
    hide Next, Enabled, Inner, Effort, Inv, Busy, DrainedBy;
    var s := After(workers, run).value;
    Invariant(workers, run);
    if !Busy(s) {
      DrainedNow(workers, run, s);
    } else {
      InnerStep(s);
      var a :| Inner(a) && Enabled(s, a);
      InnerUsesEffort(s, a);
      EffortNatural(s);
      var next := run + [a];
      assert next[..|next|-1] == run;
      EffortNatural(After(workers, next).value);
      TasksGetDone(workers, next);
      var more :| DrainedBy(workers, next, more);
      DrainedSooner(workers, run, a, more);
    }
  }

  lemma DrainedSooner(workers: set<nat>, run: seq<Action>, a: Action, more: seq<Action>)
    requires Inner(a) && DrainedBy(workers, run + [a], more)
    ensures DrainedBy(workers, run, [a] + more)
  {
    hide After, Inner;
    assert run + ([a] + more) == run + [a] + more;
  }

  lemma DrainedNow(workers: set<nat>, run: seq<Action>, s: Pool)
    requires After(workers, run) == Some(s) && Inv(s) && !Busy(s)
    ensures DrainedBy(workers, run, [])
  {
    hide After, Inv, Busy;
    assert run + [] == run;
    IdleIsDone(s);
  }

  lemma IdleIsDone(s: Pool)
    requires Inv(s) && !Busy(s)
    ensures s.queue == [] && forall t :: t in s.accepted ==> t in s.finished
  {
    hide MutexOk, ShutdownOk, WakeupsOk;
    assert s.accepted == s.dequeued;
    assert forall t :: !RunBy(s, t);
  }

  // ---- Shutdown always gets there ----

  predicate IsWorkerStep(a: Action) {
    a.WorkerLocks? || a.Test? || a.Sleep? || a.Take? || a.Finish?
  }

  /** Once everybody has been woken for the last time, the pool is never stuck: the holder of the
      mutex, or else some worker, can go on without any spurious wakeup or new submit. */
  lemma ShutdownNotStuck(workers: set<nat>, run: seq<Action>, s: Pool)
    requires After(workers, run) == Some(s) && s.destructor == Joining
    requires exists w :: w in s.workers && s.workers[w] != Done
    ensures exists a :: (IsWorkerStep(a) || a.Push?) && Enabled(s, a)
  {
    hide After, TasksOk, WakeupsOk;
    Invariant(workers, run);
    match s.mutex {
      case SubmitLock(t) => assert Enabled(s, Push(t));
      case WorkerLock(w) =>
        assert Enabled(s, Test(w)) || Enabled(s, Take(w));
        if Enabled(s, Test(w)) { assert IsWorkerStep(Test(w)); } else { assert IsWorkerStep(Take(w)); }
      case Nobody =>
        var w :| w in s.workers && s.workers[w] != Done;
        assert Enabled(s, WorkerLocks(w)) || Enabled(s, Finish(w));
        if Enabled(s, Finish(w)) { assert IsWorkerStep(Finish(w)); } else { assert IsWorkerStep(WorkerLocks(w)); }
      case DestructorLock => assert false;
    }
  }

  function Phase(d: Destructor): nat {
    match d case Alive => 4 case Stopping => 3 case NotifyAll => 2 case Joining => 1 case Joined => 0
  }

  predicate Closing(a: Action) { Inner(a) || a == DestroyLocks || a == WakeAll || a == Join }

  /** The destructor's next step, or one that brings it nearer. */
  lemma ClosingStep(s: Pool) returns (a: Action)
    requires Inv(s) && s.destructor != Joined
    ensures Closing(a) && Enabled(s, a)
    ensures Phase(Next(s, a).destructor) < Phase(s.destructor) || (Inner(a) && Next(s, a).destructor == s.destructor)
  {
    hide TasksOk, WakeupsOk;
    match s.destructor {
      case Stopping => a := Stop;
      case NotifyAll => a := WakeAll;
      case Alive =>
        match s.mutex {
          case Nobody => a := DestroyLocks;
          case SubmitLock(t) => a := Push(t);
          case WorkerLock(w) =>
            a := if s.workers[w] == Holding then Test(w) else if s.workers[w] == AboutToWait then Sleep(w) else Take(w);
          case DestructorLock => assert false;
        }
      case Joining =>
        if w :| w in s.workers && s.workers[w] != Done { a := JoiningStep(s, w); } else { a := Join; }
    }
  }

  lemma JoiningStep(s: Pool, v: nat) returns (a: Action)
    requires MutexOk(s) && ShutdownOk(s) && s.destructor == Joining && v in s.workers && s.workers[v] != Done
    ensures Inner(a) && Enabled(s, a) && Next(s, a).destructor == Joining
  {
    match s.mutex {
      case SubmitLock(t) => a := Push(t);
      case WorkerLock(w) => a := if s.workers[w] == Holding then Test(w) else Take(w);
      case Nobody => a := if s.workers[v].Running? then Finish(v) else WorkerLocks(v);
      case DestructorLock => assert false;
    }
  }

  predicate ClosedBy(workers: set<nat>, run: seq<Action>, more: seq<Action>) {
    && (forall i :: 0 <= i < |more| ==> Closing(more[i]))
    && After(workers, run + more).Some? && After(workers, run + more).value.destructor == Joined
  }

  lemma ClosedSooner(workers: set<nat>, run: seq<Action>, a: Action, more: seq<Action>)
    requires Closing(a) && ClosedBy(workers, run + [a], more)
    ensures ClosedBy(workers, run, [a] + more)
  {
    hide After, Closing;
    assert run + ([a] + more) == run + [a] + more;
  }

  /** From every reachable state the destructor can run to the end of its joins. */
  lemma {:induction false} ShutdownCompletes(workers: set<nat>, run: seq<Action>)
    requires After(workers, run).Some?
    ensures exists more :: ClosedBy(workers, run, more)
    decreases Phase(After(workers, run).value.destructor), Effort(After(workers, run).value)
  {
    hide Next, Enabled, Inner, Closing, Effort, Inv, ClosedBy;
    var s := After(workers, run).value;
    Invariant(workers, run);
    if s.destructor == Joined {
      AlreadyClosed(workers, run, s);
    } else {
      var a := ClosingStep(s);
      if Inner(a) { InnerUsesEffort(s, a); }
      var next := run + [a];
      assert next[..|next|-1] == run;
      EffortNatural(s);
      EffortNatural(After(workers, next).value);
      ShutdownCompletes(workers, next);
      var more :| ClosedBy(workers, next, more);
      ClosedSooner(workers, run, a, more);
    }
  }

  lemma AlreadyClosed(workers: set<nat>, run: seq<Action>, s: Pool)
    requires After(workers, run) == Some(s) && s.destructor == Joined
    ensures ClosedBy(workers, run, [])
  {
    hide After;
    assert run + [] == run;
  }

  function Weight(pc: Worker): nat {
    match pc
    case Running(_) => 5
    case Top => 4
    case Woken => 4
    case Holding => 3
    case AboutToTake => 2
    case AboutToWait => 1
    case _ => 0
  }

  function Weights(s: Pool): map<nat, int> { map w | w in s.workers :: Weight(s.workers[w]) }

  ghost function Work(s: Pool): int { 4 * |s.queue| + MapSum(Weights(s)) }

  /** Once stopped, every step of a worker uses up work, of which there is never less than none, and
      no other step adds any: the joins are reached after finitely many steps. */
  lemma ShutdownTerminates(workers: set<nat>, run: seq<Action>, s: Pool, a: Action)
    requires After(workers, run) == Some(s) && s.destructor == Joining && Enabled(s, a)
    ensures IsWorkerStep(a) ==> 0 <= Work(Next(s, a)) < Work(s)
    ensures Work(Next(s, a)) <= Work(s) && Next(s, a).destructor in {Joining, Joined}
  {
    hide After, TasksOk, WakeupsOk, MutexOk;
    Invariant(workers, run);
    MapSumNonNegative(Weights(Next(s, a)));
    if IsWorkerStep(a) { WorkUsed(s, a); } else { WorkKept(s, a); }
  }

  lemma WorkUsed(s: Pool, a: Action)
    requires ShutdownOk(s) && s.stopped && Enabled(s, a) && IsWorkerStep(a)
    ensures Work(Next(s, a)) < Work(s)
  {
    hide Weights, Next;
    WorkerMoves(s, a);
    WorkerUpdate(s, Next(s, a), a.w, Next(s, a).workers[a.w]);
  }

  /** A step of a worker in a stopped pool: closer to its end, or with one task fewer in the queue. */
  lemma WorkerMoves(s: Pool, a: Action)
    requires ShutdownOk(s) && s.stopped && Enabled(s, a) && IsWorkerStep(a)
    ensures a.w in s.workers && Next(s, a).workers == s.workers[a.w := Next(s, a).workers[a.w]]
    ensures 4 * |Next(s, a).queue| + Weight(Next(s, a).workers[a.w]) < 4 * |s.queue| + Weight(s.workers[a.w])
  {
  }

  lemma WorkKept(s: Pool, a: Action)
    requires ShutdownOk(s) && s.destructor == Joining && Enabled(s, a) && !IsWorkerStep(a)
    ensures Next(s, a).workers == s.workers && Next(s, a).queue == s.queue
  {
  }
}
