/** The relay gets its work done: which waiting messages can still be acknowledged, and that all others
    are lost for good. */
module RelayProgress {
  import opened Prelude
  import opened Relay

  // ---- Runs from any state ----

  function RunFrom(s: State, more: seq<Action>): Option<State> {
    if more == [] then Some(s)
    else
      var prev := RunFrom(s, more[..|more|-1]);
      if prev.Some? && Enabled(prev.value, more[|more|-1]) then Some(Next(prev.value, more[|more|-1])) else None
  }

  lemma {:induction false} Join(s: State, first: seq<Action>, second: seq<Action>)
    requires RunFrom(s, first).Some?
    ensures RunFrom(s, first + second) == RunFrom(RunFrom(s, first).value, second)
    decreases |second|
  {
    hide Enabled, Next;
    if second == [] {
      assert first + second == first;
    } else {
      assert (first + second)[..|first + second|-1] == first + second[..|second|-1];
      Join(s, first, second[..|second|-1]);
    }
  }

  lemma {:induction false} AfterIsRunFrom(run: seq<Action>, more: seq<Action>)
    requires After(run).Some?
    ensures After(run + more) == RunFrom(After(run).value, more)
    decreases |more|
  {
    hide Enabled, Next;
    if more == [] {
      assert run + more == run;
    } else {
      assert (run + more)[..|run + more|-1] == run + more[..|more|-1];
      AfterIsRunFrom(run, more[..|more|-1]);
    }
  }

  lemma OneStep(s: State, a: Action)
    requires Inv(s) && Enabled(s, a)
    ensures RunFrom(s, [a]) == Some(Next(s, a)) && Inv(Next(s, a))
  {
    hide Inv, Enabled, Next;
    assert [a][..0] == [];
    NextKeeps(s, a);
  }

  /** Time passes, ticks come, scans, publishes and marks succeed. */
  predicate Smooth(more: seq<Action>) {
    forall i :: 0 <= i < |more| ==> Good(more[i])
  }

  predicate Good(a: Action) {
    a.Tick? || a.Timer? || a.Scan? || (a.Publish? && a.ok) || a.Mark? || a.Finish?
  }

  predicate Idle(s: State) { !s.running && s.tasks == map[] }

  /** A smooth run leads from one state to the other. */
  ghost predicate Leads(s: State, more: seq<Action>, s': State) {
    Smooth(more) && RunFrom(s, more) == Some(s') && Inv(s')
  }

  lemma LeadsJoin(s: State, first: seq<Action>, mid: State, second: seq<Action>, s': State)
    requires Leads(s, first, mid) && Leads(mid, second, s')
    ensures Leads(s, first + second, s')
  {
    hide RunFrom, Inv;
    Join(s, first, second);
  }

  lemma LeadsStep(s: State, a: Action)
    requires Inv(s) && Enabled(s, a) && Good(a)
    ensures Leads(s, [a], Next(s, a))
  {
    hide Inv, Enabled, Next;
    OneStep(s, a);
  }

  // ---- Serving a batch ----

  predicate Ahead(batch: seq<Entry>, i: int, id: nat) { exists j :: i <= j < |batch| && 0 <= j && batch[j].id == id }

  /** Every message still ahead in the batch is acknowledged, no other row is touched. */
  predicate Served(rows: map<nat, Row>, rows': map<nat, Row>, batch: seq<Entry>, i: int) {
    && rows'.Keys == rows.Keys
    && forall id | id in rows :: if Ahead(batch, i, id) then rows'[id].status == Acked else rows'[id] == rows[id]
  }

  lemma PublishAndMark(s: State, t: nat)
    requires Inv(s) && t in s.tasks && s.tasks[t].Publishing? && s.tasks[t].i < |s.tasks[t].batch|
    ensures var batch, i := s.tasks[t].batch, s.tasks[t].i;
            && Enabled(s, Publish(t, true)) && Enabled(Next(s, Publish(t, true)), Mark(t))
            && batch[i].id in s.rows
            && var s2 := Next(Next(s, Publish(t, true)), Mark(t));
               && s2.tasks == s.tasks[t := Publishing(batch, i + 1)] && s2.running == s.running && s2.now == s.now
               && s2.rows == s.rows[batch[i].id := s.rows[batch[i].id].(status := Acked, closedAt := s.now)]
  {
    hide RowsOk, SingleFlight;
    assert TaskOk(s, s.tasks[t]);
    assert Current(s, s.tasks[t].batch[s.tasks[t].i]);
    var batch, i := s.tasks[t].batch, s.tasks[t].i;
    var done := Publishing(batch, i + 1);
    assert s.tasks[t := Marking(batch, i, true)][t := done] == s.tasks[t := done];
  }

  lemma ServedOne(s: State, t: nat, rows: map<nat, Row>, rows': map<nat, Row>)
    requires Inv(s) && t in s.tasks && s.tasks[t].Publishing? && s.tasks[t].i < |s.tasks[t].batch|
    requires s.tasks[t].batch[s.tasks[t].i].id in s.rows
    requires rows.Keys == s.rows.Keys && Served(rows, rows', s.tasks[t].batch, s.tasks[t].i + 1)
    requires rows[s.tasks[t].batch[s.tasks[t].i].id].status == Acked
    requires forall id :: id in rows && id != s.tasks[t].batch[s.tasks[t].i].id ==> rows[id] == s.rows[id]
    ensures Served(s.rows, rows', s.tasks[t].batch, s.tasks[t].i)
  {
    hide RowsOk, SingleFlight;
    var batch, i := s.tasks[t].batch, s.tasks[t].i;
    assert TaskOk(s, s.tasks[t]);
    forall id | id in s.rows
      ensures if Ahead(batch, i, id) then rows'[id].status == Acked else rows'[id] == s.rows[id]
    {
      if id == batch[i].id {
        assert Ahead(batch, i, id);
      } else {
        assert Ahead(batch, i, id) <==> Ahead(batch, i + 1, id);
      }
    }
  }

  lemma {:induction false} ServeRest(s: State, t: nat) returns (more: seq<Action>, s': State)
    requires Inv(s) && t in s.tasks && s.tasks[t].Publishing?
    ensures Leads(s, more, s') && Idle(s') && s'.now == s.now
    ensures Served(s.rows, s'.rows, s.tasks[t].batch, s.tasks[t].i)
    decreases |s.tasks[t].batch| - s.tasks[t].i
  {
    var batch, i := s.tasks[t].batch, s.tasks[t].i;
    if i >= |batch| {
      hide Inv, Served;
      more, s' := [Finish(t)], Next(s, Finish(t));
      LeadsStep(s, Finish(t));
      OnlyOne(s, t) by { InvFlight(s); }
      NothingAhead(s.rows, batch, i);
    } else {
      hide Next, Enabled, Inv, Served;
      PublishAndMark(s, t);
      var s2 := ServeOne(s, t);
      LeadsInv(s, [Publish(t, true), Mark(t)], s2);
      var rest;
      rest, s' := ServeRest(s2, t);
      ServedOne(s, t, s2.rows, s'.rows);
      LeadsJoin(s, [Publish(t, true), Mark(t)], s2, rest, s');
      more := [Publish(t, true), Mark(t)] + rest;
    }
  }

  lemma ServeOne(s: State, t: nat) returns (s2: State)
    requires Inv(s) && t in s.tasks && s.tasks[t].Publishing? && s.tasks[t].i < |s.tasks[t].batch|
    requires Enabled(s, Publish(t, true)) && Enabled(Next(s, Publish(t, true)), Mark(t))
    ensures Leads(s, [Publish(t, true), Mark(t)], s2) && s2 == Next(Next(s, Publish(t, true)), Mark(t))
  {
    hide Next, Enabled, Inv;
    var s1 := Next(s, Publish(t, true));
    LeadsStep(s, Publish(t, true));
    s2 := Next(s1, Mark(t));
    LeadsStep(s1, Mark(t));
    LeadsJoin(s, [Publish(t, true)], s1, [Mark(t)], s2);
    assert [Publish(t, true)] + [Mark(t)] == [Publish(t, true), Mark(t)];
  }

  lemma InvFlight(s: State)
    requires Inv(s)
    ensures SingleFlight(s)
  {
  }

  lemma NothingAhead(rows: map<nat, Row>, batch: seq<Entry>, i: int)
    requires i >= |batch|
    ensures Served(rows, rows, batch, i)
  {
  }

  lemma OnlyOne(s: State, t: nat)
    requires SingleFlight(s) && t in s.tasks
    ensures s.tasks - {t} == map[]
  {
  }

  // ---- Rounds ----

  function DueIds(s: State): set<nat> {
    set id | id in s.rows && s.rows[id].status == Waiting && s.rows[id].nextRetry <= s.now
  }

  /** One round from rest acknowledges what it scans. */
  lemma Round(s: State) returns (more: seq<Action>, s': State)
    requires Inv(s) && Idle(s)
    ensures Leads(s, more, s') && Idle(s') && s'.now == s.now
    ensures Served(s.rows, s'.rows, ScanPending(s.rows, s.now), 0)
  {
    hide Inv, ScanPending, Served, Leads;
    var s1 := Next(s, Timer(0));
    LeadsStep(s, Timer(0));
    var s2 := Next(s1, Scan(0));
    LeadsStep(s1, Scan(0)) by { LeadsInv(s, [Timer(0)], s1); }
    LeadsJoin(s, [Timer(0)], s1, [Scan(0)], s2);
    LeadsInv(s1, [Scan(0)], s2);
    var rest;
    rest, s' := ServeRest(s2, 0);
    LeadsJoin(s, [Timer(0)] + [Scan(0)], s2, rest, s');
    more := [Timer(0)] + [Scan(0)] + rest;
  }

  lemma LeadsInv(s: State, more: seq<Action>, s': State)
    requires Leads(s, more, s')
    ensures Inv(s')
  {
  }

  lemma FewerDue(s: State, s': State, id: nat)
    requires Served(s.rows, s'.rows, ScanPending(s.rows, s.now), 0) && s'.now == s.now
    requires id in DueIds(s) && !InBatch(ScanPending(s.rows, s.now), id)
    ensures id in DueIds(s') && DueIds(s') < DueIds(s)
  {
    hide ScanPending;
    ScanIsDue(s.rows, s.now);
    var batch := ScanPending(s.rows, s.now);
    assert !Ahead(batch, 0, id);
    assert forall k :: k in DueIds(s') ==> k in DueIds(s);
    assert Ahead(batch, 0, batch[0].id) && batch[0].id in DueIds(s) && batch[0].id !in DueIds(s');
  }

  /** From rest, every waiting row whose time has come gets acknowledged after some rounds. */
  lemma {:induction false} Rounds(s: State, id: nat) returns (more: seq<Action>, s': State)
    requires Inv(s) && Idle(s) && id in DueIds(s)
    ensures Leads(s, more, s') && id in s'.rows && s'.rows[id].status == Acked
    decreases |DueIds(s)|
  {
    hide Inv, ScanPending;
    more, s' := Round(s);
    var batch := ScanPending(s.rows, s.now);
    if InBatch(batch, id) {
      assert Ahead(batch, 0, id);
    } else {
      FewerDue(s, s', id);
      SmallerSet(DueIds(s'), DueIds(s));
      LeadsInv(s, more, s');
      var rest, end := Rounds(s', id);
      LeadsJoin(s, more, s', rest, end);
      more, s' := more + rest, end;
    }
  }

  lemma SmallerSet(a: set<nat>, b: set<nat>)
    requires a < b
    ensures |a| < |b|
  {
    var x :| x in b && x !in a;
    assert a <= b - {x};
    SubsetSize(a, b - {x});
  }

  lemma {:induction false} SubsetSize(a: set<nat>, b: set<nat>)
    requires a <= b
    ensures |a| <= |b|
  {
    if a != {} {
      var x :| x in a;
      SubsetSize(a - {x}, b - {x});
    }
  }

  // ---- Which messages can still get through ----

  /** The eighth failure has happened and only has to be recorded. */
  predicate LastFailure(s: State, id: nat) { id in s.rows && s.rows[id].retryCount == 7 && FailedInDoubt(s, id) }

  predicate Open(s: State, id: nat) { id in s.rows && (s.rows[id].status == Waiting || s.rows[id].status == Acked) }

  lemma ServedOpen(rows: map<nat, Row>, rows': map<nat, Row>, batch: seq<Entry>, i: int, id: nat)
    requires Served(rows, rows', batch, i) && id in rows && (rows[id].status == Waiting || rows[id].status == Acked)
    ensures id in rows' && (rows'[id].status == Waiting || rows'[id].status == Acked)
  {
  }

  lemma MarkOpen(s: State, t: nat, id: nat)
    requires Inv(s) && t in s.tasks && s.tasks[t].Marking? && id in s.rows && s.rows[id].status == Waiting
    requires !LastFailure(s, id)
    ensures Enabled(s, Mark(t)) && Open(Next(s, Mark(t)), id)
    ensures t in Next(s, Mark(t)).tasks && Next(s, Mark(t)).tasks[t].Publishing?
  {
    assert TaskOk(s, s.tasks[t]);
    assert Current(s, s.tasks[t].batch[s.tasks[t].i]);
    assert RowOk(s, id);
    assert s.tasks[t].batch[s.tasks[t].i].id == id && !s.tasks[t].ok ==> FailedInDoubt(s, id);
  }

  /** The task under way, if any, can be brought to its end without closing off the message. */
  lemma ToRest(s: State, id: nat) returns (more: seq<Action>, s': State)
    requires Inv(s) && !Stuck(s) && id in s.rows && s.rows[id].status == Waiting && !LastFailure(s, id)
    ensures Leads(s, more, s') && Idle(s') && Open(s', id)
  {
    hide Inv, Served, ScanPending, LastFailure;
    if s.tasks == map[] {
      more, s' := [], s;
    } else {
      var t :| t in s.tasks;
      if s.tasks[t].Publishing? {
        more, s' := ServeRest(s, t);
        ServedOpen(s.rows, s'.rows, s.tasks[t].batch, s.tasks[t].i, id);
      } else {
        var a := if s.tasks[t].Submitted? then Scan(t) else Mark(t);
        if a.Mark? { MarkOpen(s, t, id); }
        var s1 := Next(s, a);
        LeadsStep(s, a);
        LeadsInv(s, [a], s1);
        var rest;
        rest, s' := ServeRest(s1, t);
        ServedOpen(s1.rows, s'.rows, s1.tasks[t].batch, s1.tasks[t].i, id);
        LeadsJoin(s, [a], s1, rest, s');
        more := [a] + rest;
      }
    }
  }

  lemma DueAfterPause(s: State, id: nat)
    requires Inv(s) && id in s.rows && s.rows[id].status == Waiting
    ensures id in DueIds(Next(s, Tick(320)))
  {
    hide SingleFlight, TasksOk, InDoubt, FailedInDoubt;
    assert RowOk(s, id);
    PauseBound(s.rows[id].retryCount);
  }

  lemma GetsThrough(s: State, id: nat) returns (more: seq<Action>, s': State)
    requires Inv(s) && !Stuck(s) && id in s.rows && s.rows[id].status == Waiting && !LastFailure(s, id)
    ensures Leads(s, more, s') && id in s'.rows && s'.rows[id].status == Acked
  {
    hide Inv, LastFailure, DueIds, Leads, Stuck;
    more, s' := ToRest(s, id);
    if s'.rows[id].status == Waiting {
      LeadsInv(s, more, s');
      DueAfterPause(s', id);
      var ticked := Next(s', Tick(320));
      LeadsStep(s', Tick(320));
      LeadsInv(s', [Tick(320)], ticked);
      var rest, end := Rounds(ticked, id);
      LeadsJoin(s, more, s', [Tick(320)], ticked);
      LeadsJoin(s, more + [Tick(320)], ticked, rest, end);
      more, s' := more + [Tick(320)] + rest, end;
    }
  }

  /** Without an exception or a restart the eighth failure leads to giving up. */
  predicate Doomed(s: State, id: nat) {
    id in s.rows && (s.rows[id].status == GivenUp || (s.rows[id].status == Waiting && LastFailure(s, id)))
  }

  lemma DoomedStep(s: State, a: Action, id: nat)
    requires Inv(s) && Enabled(s, a) && Doomed(s, id) && !a.MarkThrows? && a != Crash
    ensures Doomed(Next(s, a), id)
  {
    hide RowsOk, ScanPending;
    if s.rows[id].status == GivenUp {
      hide TasksOk, Next, Enabled;
      ClosedIsFinal(s, a, id);
    } else {
      var t :| t in s.tasks && Records(s.tasks[t], id) && !s.tasks[t].ok;
      assert TaskOk(s, s.tasks[t]) && Current(s, s.tasks[t].batch[s.tasks[t].i]);
      if !a.Mark? { assert t in Next(s, a).tasks && Next(s, a).tasks[t] == s.tasks[t]; } else { assert a.t == t; }
    }
  }

  lemma {:induction false} DoomedStays(s: State, more: seq<Action>, id: nat)
    requires Inv(s) && Doomed(s, id) && RunFrom(s, more).Some?
    requires forall i :: 0 <= i < |more| ==> !more[i].MarkThrows? && more[i] != Crash
    ensures Inv(RunFrom(s, more).value) && Doomed(RunFrom(s, more).value, id)
  {
    hide Inv, Enabled, Next, Doomed;
    if more != [] {
      var front := more[..|more|-1];
      DoomedStays(s, front, id);
      NextKeeps(RunFrom(s, front).value, more[|more|-1]);
      DoomedStep(RunFrom(s, front).value, more[|more|-1], id);
    }
  }

  predicate AckedBy(run: seq<Action>, more: seq<Action>, id: nat) {
    Smooth(more) && After(run + more).Some? && id in After(run + more).value.rows
    && After(run + more).value.rows[id].status == Acked
  }

  /** Progress, exactly: in every reachable state where the flag is not lost, a waiting message can still
      be published and acknowledged by a continuation without exceptions, unless its eighth failure has
      happened and waits to be recorded; then no such continuation does it. */
  lemma WaitingGetsThrough(run: seq<Action>, s: State, id: nat)
    requires After(run) == Some(s) && !Stuck(s) && id in s.rows && s.rows[id].status == Waiting
    ensures (exists more :: AckedBy(run, more, id)) <==> !LastFailure(s, id)
  {
    hide After, Inv, LastFailure, Stuck;
    Invariant(run);
    if LastFailure(s, id) {
      forall more ensures !AckedBy(run, more, id) {
        AfterIsRunFrom(run, more);
        if AckedBy(run, more, id) { DoomedStays(s, more, id); }
      }
    } else {
      var more, s' := GetsThrough(s, id);
      AfterIsRunFrom(run, more);
      assert AckedBy(run, more, id);
    }
  }
}
