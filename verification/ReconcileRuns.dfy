/** Reconciliation runs, manual and timed, and the handling of their differences, interleaved
    statement by statement. A run's rows are private until it commits; handling is one conditional
    update outside any transaction. */
module ReconcileRuns {
  import opened Prelude
  import opened Reconcile

  datatype Status = Pending | Verified | Ignored
  /** What a handling call asks for; any other action is refused before the tables are looked at. */
  datatype Choice = Verify | Ignore
  datatype DiffRow = DiffRow(batchNo: nat, diff: Diff, status: Status)

  /** The statement a run executes next: the date check, the batch insert, or one difference insert
      after the other and then the commit. */
  datatype Pc = CheckDate | InsertBatch | InsertDiffs

  /** `ids` are the auto-increment ids its difference rows got so far, `found` all differences found. */
  datatype Run = Run(date: nat, local: seq<Row>, channel: seq<Row>, found: seq<Diff>, batch: Batch, pc: Pc,
                     ids: seq<nat>, rows: map<nat, DiffRow>)

  /** What a committed batch compared, and the ids of its difference rows in insertion order. */
  datatype Report = Report(local: seq<Row>, channel: seq<Row>, found: seq<Diff>, ids: seq<nat>)
  datatype RunEnded = RunEnded(date: nat, batchNo: Option<nat>)
  datatype Handled = Handled(id: nat, target: Status, ok: bool)

  /** batches is keyed by bill date (uk_date_channel; there is one channel). reports, ended and handled
      are history. */
  datatype State = State(batches: map<nat, Batch>, diffs: map<nat, DiffRow>, runs: map<nat, Run>,
                         handling: map<nat, (nat, Status)>, drawn: set<nat>, lastRow: nat,
                         reports: map<nat, Report>, ended: map<nat, RunEnded>, handled: seq<Handled>)

  datatype Action =
    | Begin(r: nat, date: nat, local: seq<Row>, channel: seq<Row>, newId: nat)
    | Check(r: nat) | Insert(r: nat) | AddDiff(r: nat) | Commit(r: nat) | Abort(r: nat)
    | Lookup(h: nat, id: nat, choice: Choice) | Update(h: nat)

  predicate HoldsDate(s: State, q: nat, date: nat) {
    q in s.runs && s.runs[q].date == date && s.runs[q].pc == InsertDiffs
  }

  /** A run that finds its date taken, at the check or at the insert, can only abort; an insert waits
      while another run holds the date's key. */
  predicate Enabled(s: State, a: Action) {
    match a
    case Begin(r, _, _, _, newId) => r !in s.runs && r !in s.ended && newId !in s.drawn
    case Check(r) => r in s.runs && s.runs[r].pc == CheckDate && s.runs[r].date !in s.batches
    case Insert(r) =>
      && r in s.runs && s.runs[r].pc == InsertBatch && s.runs[r].date !in s.batches
      && forall q :: q in s.runs && q != r ==> !HoldsDate(s, q, s.runs[r].date)
    case AddDiff(r) => r in s.runs && s.runs[r].pc == InsertDiffs && |s.runs[r].ids| < |s.runs[r].found|
    case Commit(r) =>
      r in s.runs && r !in s.ended && s.runs[r].pc == InsertDiffs && |s.runs[r].ids| >= |s.runs[r].found|
    case Abort(r) => r in s.runs && r !in s.ended
    case Lookup(h, id, _) => h !in s.handling && id in s.diffs
    case Update(h) => h in s.handling && s.handling[h].0 in s.diffs
  }

  function NewRun(date: nat, local: seq<Row>, channel: seq<Row>, no: nat): Run {
    var found := Classified(LastWins(local), LastWins(channel));
    Run(date, local, channel, found,
        Batch(no, |local|, RowTotal(local), |channel|, RowTotal(channel), |found|, found == []), CheckDate, [], map[])
  }

  function TargetOf(choice: Choice): Status { match choice case Verify => Verified case Ignore => Ignored }

  function Next(s: State, a: Action): State
    requires Enabled(s, a)
  {
    match a
    case Begin(r, date, local, channel, newId) =>
      s.(runs := s.runs[r := NewRun(date, local, channel, newId)], drawn := s.drawn + {newId})
    case Check(r) => s.(runs := s.runs[r := s.runs[r].(pc := InsertBatch)])
    case Insert(r) => s.(runs := s.runs[r := s.runs[r].(pc := InsertDiffs)])
    case AddDiff(r) =>
      var run, id := s.runs[r], s.lastRow + 1;
      var row := DiffRow(run.batch.batchNo, run.found[|run.ids|], Pending);
      s.(runs := s.runs[r := run.(ids := run.ids + [id], rows := run.rows[id := row])], lastRow := id)
    case Commit(r) =>
      var run := s.runs[r];
      s.(batches := s.batches[run.date := run.batch], diffs := s.diffs + run.rows, runs := s.runs - {r},
         reports := s.reports[run.batch.batchNo := Report(run.local, run.channel, run.found, run.ids)],
         ended := s.ended[r := RunEnded(run.date, Some(run.batch.batchNo))])
    case Abort(r) => s.(runs := s.runs - {r}, ended := s.ended[r := RunEnded(s.runs[r].date, None)])
    case Lookup(h, id, choice) => s.(handling := s.handling[h := (id, TargetOf(choice))])
    case Update(h) =>
      var (id, target) := s.handling[h];
      var ok := s.diffs[id].status == Pending;
      s.(handling := s.handling - {h}, handled := s.handled + [Handled(id, target, ok)],
         diffs := if ok then s.diffs[id := s.diffs[id].(status := target)] else s.diffs)
  }

  const Start: State := State(map[], map[], map[], map[], {}, 0, map[], map[], [])

  function After(run: seq<Action>): Option<State> {
    if run == [] then Some(Start)
    else
      var prev := After(run[..|run|-1]);
      if prev.Some? && Enabled(prev.value, run[|run|-1]) then Some(Next(prev.value, run[|run|-1])) else None
  }

  // ---- Invariant ----

  /** The rows of a batch are the first |ids| differences found, one row each, in insertion order. */
  predicate RowsAre(rows: map<nat, DiffRow>, ids: seq<nat>, batchNo: nat, found: seq<Diff>) {
    && (forall i, j :: 0 <= i < j < |ids| ==> ids[i] < ids[j]) && |ids| <= |found|
    && (forall i | 0 <= i < |ids| ::
          ids[i] in rows && rows[ids[i]].batchNo == batchNo && rows[ids[i]].diff == found[i])
    && (forall id :: id in rows && rows[id].batchNo == batchNo ==> id in ids)
  }

  predicate Truthful(b: Batch, local: seq<Row>, channel: seq<Row>, found: seq<Diff>) {
    Summarizes(b, local, channel) && found == Classified(LastWins(local), LastWins(channel)) && b.diffCount == |found|
  }

  predicate RunOk(s: State, run: Run) {
    var no := run.batch.batchNo;
    && Truthful(run.batch, run.local, run.channel, run.found)
    && no in s.drawn && no !in s.reports && (forall id :: id in s.diffs ==> s.diffs[id].batchNo != no)
    && RowsAre(run.rows, run.ids, no, run.found)
    && (forall id :: id in run.rows ==>
      id <= s.lastRow && id !in s.diffs && run.rows[id].batchNo == no && run.rows[id].status == Pending)
    && (run.pc == InsertDiffs ==> run.date !in s.batches)
  }

  predicate RunsOk(s: State) { forall r :: r in s.runs ==> RunOk(s, s.runs[r]) }

  predicate Apart(a: Run, b: Run) {
    && a.batch.batchNo != b.batch.batchNo && (forall id :: id in a.rows ==> id !in b.rows)
    && !(a.date == b.date && a.pc == InsertDiffs && b.pc == InsertDiffs)
  }

  predicate RunsApart(s: State) { forall q, r | q in s.runs && r in s.runs && q != r :: Apart(s.runs[q], s.runs[r]) }

  predicate BatchOk(s: State, b: Batch) {
    && b.batchNo in s.reports && b.batchNo in s.drawn
    && var rep := s.reports[b.batchNo];
    && Truthful(b, rep.local, rep.channel, rep.found) && |rep.ids| == b.diffCount
    && RowsAre(s.diffs, rep.ids, b.batchNo, rep.found)
  }

  predicate BatchesOk(s: State) {
    && (forall date :: date in s.batches ==> BatchOk(s, s.batches[date]))
    && (forall id :: id in s.diffs ==> id <= s.lastRow && s.diffs[id].batchNo in s.reports)
    && (forall no :: no in s.reports ==> no in s.drawn && HasBatch(s, no))
  }

  predicate HasBatch(s: State, no: nat) { exists date :: date in s.batches && s.batches[date].batchNo == no }

  predicate EndedOk(s: State) {
    && (forall r :: r in s.ended && s.ended[r].batchNo.Some? ==>
      s.ended[r].date in s.batches && s.batches[s.ended[r].date].batchNo == s.ended[r].batchNo.value)
    && (forall q, r | q in s.ended && r in s.ended && q != r && s.ended[q].batchNo.Some? && s.ended[r].batchNo.Some? ::
      s.ended[q].date != s.ended[r].date)
  }

  predicate Won(handled: seq<Handled>, i: nat, id: nat) { i < |handled| && handled[i].id == id && handled[i].ok }

  predicate Settled(handled: seq<Handled>, id: nat) { exists i :: 0 <= i < |handled| && Won(handled, i, id) }

  /** A difference is pending until the one call that handled it, whose choice it keeps for good. */
  predicate HandledOk(s: State) {
    && (forall i :: 0 <= i < |s.handled| ==>
      && s.handled[i].id in s.diffs && s.diffs[s.handled[i].id].status != Pending
      && (s.handled[i].ok ==> s.diffs[s.handled[i].id].status == s.handled[i].target))
    && (forall i, j | 0 <= i < j < |s.handled| && s.handled[i].ok && s.handled[j].ok ::
          s.handled[i].id != s.handled[j].id)
    && (forall id :: id in s.diffs && s.diffs[id].status != Pending ==> Settled(s.handled, id))
    && (forall h :: h in s.handling ==> s.handling[h].0 in s.diffs && s.handling[h].1 != Pending)
  }

  predicate Inv(s: State) { RunsOk(s) && RunsApart(s) && BatchesOk(s) && EndedOk(s) && HandledOk(s) }

  // ---- Every action keeps it ----

  /** A run's knowledge depends on the tables only through its date, batch number and row ids. */
  lemma RunStable(s: State, s': State, run: Run)
    requires RunOk(s, run) && s.drawn <= s'.drawn && s'.lastRow >= s.lastRow
    requires run.pc == InsertDiffs && run.date in s'.batches ==> run.date in s.batches
    requires run.batch.batchNo in s'.reports ==> run.batch.batchNo in s.reports
    requires forall id :: id in s'.diffs && id in s.diffs ==> s'.diffs[id].batchNo == s.diffs[id].batchNo
    requires forall id | id in s'.diffs && id !in s.diffs ::
               id !in run.rows && s'.diffs[id].batchNo != run.batch.batchNo
    ensures RunOk(s', run)
  {
    hide RowsAre, Truthful;
  }

  lemma RowsMore(rows: map<nat, DiffRow>, ids: seq<nat>, batchNo: nat, found: seq<Diff>, id: nat)
    requires RowsAre(rows, ids, batchNo, found) && |ids| < |found|
    requires forall k :: k in rows ==> k < id
    ensures RowsAre(rows[id := DiffRow(batchNo, found[|ids|], Pending)], ids + [id], batchNo, found)
  {
    var rows' := rows[id := DiffRow(batchNo, found[|ids|], Pending)];
    var ids' := ids + [id];
    forall i | 0 <= i < |ids'|
      ensures ids'[i] in rows' && rows'[ids'[i]].batchNo == batchNo && rows'[ids'[i]].diff == found[i]
    {
      if i < |ids| { assert ids[i] in rows; }
    }
    forall k | k in rows' && rows'[k].batchNo == batchNo ensures k in ids' {
      if k == id { assert ids'[|ids|] == id; } else { assert k in ids; }
    }
  }

  lemma NewRunTruthful(date: nat, local: seq<Row>, channel: seq<Row>, no: nat)
    ensures var run := NewRun(date, local, channel, no); Truthful(run.batch, run.local, run.channel, run.found)
  {
    BalancedIffEqual(LastWins(local), LastWins(channel));
    hide Classified;
  }

  lemma NewRunOk(s: State, a: Action)
    requires BatchesOk(s) && a.Begin? && Enabled(s, a)
    ensures RunOk(Next(s, a), NewRun(a.date, a.local, a.channel, a.newId))
  {
    hide BatchOk, Truthful, Classified;
    NewRunTruthful(a.date, a.local, a.channel, a.newId);
  }

  lemma RunsBegin(s: State, a: Action)
    requires RunsOk(s) && BatchesOk(s) && a.Begin? && Enabled(s, a)
    ensures RunsOk(Next(s, a))
  {
    hide RunOk, BatchesOk, NewRun;
    NewRunOk(s, a);
    forall r | r in s.runs ensures RunOk(Next(s, a), s.runs[r]) { RunStable(s, Next(s, a), s.runs[r]); }
  }

  lemma RunsAdvance(s: State, a: Action)
    requires RunsOk(s) && Enabled(s, a) && (a.Check? || a.Insert?)
    ensures RunsOk(Next(s, a))
  {
    hide RowsAre, Truthful;
    var s' := Next(s, a);
    forall r | r in s'.runs ensures RunOk(s', s'.runs[r]) { assert RunOk(s, s.runs[r]); }
  }

  lemma AddDiffOwn(s: State, a: Action)
    requires a.AddDiff? && Enabled(s, a) && RunOk(s, s.runs[a.r]) && BatchesOk(s)
    ensures RunOk(Next(s, a), Next(s, a).runs[a.r])
  {
    hide RowsAre, Truthful, BatchOk, HasBatch;
    var run := s.runs[a.r];
    RowsMore(run.rows, run.ids, run.batch.batchNo, run.found, s.lastRow + 1);
  }

  lemma RunsAddDiff(s: State, a: Action)
    requires RunsOk(s) && BatchesOk(s) && Enabled(s, a) && a.AddDiff?
    ensures RunsOk(Next(s, a))
  {
    hide RunOk, BatchesOk;
    AddDiffOwn(s, a);
    forall r | r in s.runs && r != a.r ensures RunOk(Next(s, a), s.runs[r]) { RunStable(s, Next(s, a), s.runs[r]); }
  }

  lemma RunsCommit(s: State, a: Action)
    requires RunsOk(s) && RunsApart(s) && Enabled(s, a) && a.Commit?
    ensures RunsOk(Next(s, a))
  {
    hide RowsAre, Truthful;
    var s' := Next(s, a);
    var run := s.runs[a.r];
    assert RunOk(s, run);
    forall r | r in s'.runs ensures RunOk(s', s'.runs[r]) {
      assert Apart(run, s.runs[r]);
      RunStable(s, s', s.runs[r]);
    }
  }

  lemma RunsQuiet(s: State, a: Action)
    requires RunsOk(s) && Enabled(s, a) && (a.Abort? || a.Lookup? || a.Update?)
    ensures RunsOk(Next(s, a))
  {
    hide RunOk;
    var s' := Next(s, a);
    forall r | r in s'.runs ensures RunOk(s', s'.runs[r]) { RunStable(s, s', s.runs[r]); }
  }

  lemma ApartKept(s: State, a: Action)
    requires RunsOk(s) && RunsApart(s) && Enabled(s, a)
    ensures RunsApart(Next(s, a))
  {
    hide RowsAre, Truthful, NewRun, Apart;
    var s' := Next(s, a);
    forall q, r | q in s'.runs && r in s'.runs && q != r ensures Apart(s'.runs[q], s'.runs[r]) {
      if a.Begin? && a.r == q { NewApart(s, a, s.runs[r]); }
      else if a.Begin? && a.r == r { NewApart(s, a, s.runs[q]); }
      else { StepApart(s, a, q, r); }
    }
  }

  lemma NewApart(s: State, a: Action, run: Run)
    requires RunOk(s, run) && a.Begin? && Enabled(s, a)
    ensures var n := NewRun(a.date, a.local, a.channel, a.newId); Apart(n, run) && Apart(run, n)
  {
    hide RowsAre, Truthful, Classified;
  }

  lemma StepApart(s: State, a: Action, q: nat, r: nat)
    requires RunsOk(s) && RunsApart(s) && Enabled(s, a) && !(a.Begin? && a.r in {q, r})
    requires q in Next(s, a).runs && r in Next(s, a).runs && q != r
    ensures Apart(Next(s, a).runs[q], Next(s, a).runs[r])
  {
    hide RowsAre, Truthful, NewRun;
    assert Apart(s.runs[q], s.runs[r]) && RunOk(s, s.runs[q]) && RunOk(s, s.runs[r]);
    if a.Insert? {
      assert a.r == q ==> !HoldsDate(s, r, s.runs[q].date);
      assert a.r == r ==> !HoldsDate(s, q, s.runs[r].date);
    }
  }

  predicate SameButStatus(a: map<nat, DiffRow>, b: map<nat, DiffRow>) {
    forall id :: id in a ==> id in b && b[id].batchNo == a[id].batchNo && b[id].diff == a[id].diff
  }

  lemma BatchStable(s: State, s': State, b: Batch)
    requires BatchOk(s, b) && s.drawn <= s'.drawn
    requires b.batchNo in s.reports ==> b.batchNo in s'.reports && s'.reports[b.batchNo] == s.reports[b.batchNo]
    requires SameButStatus(s.diffs, s'.diffs)
    requires forall id :: id in s'.diffs && id !in s.diffs ==> s'.diffs[id].batchNo != b.batchNo
    ensures BatchOk(s', b)
  {
    hide Truthful;
  }

  lemma BatchesQuiet(s: State, a: Action)
    requires BatchesOk(s) && Enabled(s, a) && !a.Commit?
    ensures BatchesOk(Next(s, a))
  {
    hide BatchOk, Next, Enabled;
    var s' := Next(s, a);
    QuietTables(s, a);
    forall date | date in s.batches ensures BatchOk(s', s.batches[date]) { BatchStable(s, s', s.batches[date]); }
    assert forall no :: HasBatch(s, no) ==> HasBatch(s', no);
  }

  /** Until a run commits, no batch and no difference row appears, and rows change only in status. */
  lemma QuietTables(s: State, a: Action)
    requires Enabled(s, a) && !a.Commit?
    ensures var s' := Next(s, a);
            && s'.batches == s.batches && s'.reports == s.reports && s'.diffs.Keys == s.diffs.Keys
            && SameButStatus(s.diffs, s'.diffs) && s.drawn <= s'.drawn && s'.lastRow >= s.lastRow
            && (!a.Update? ==> s'.diffs == s.diffs)
            && (a.Update? ==>
                  forall id | id in s.diffs && (id != s.handling[a.h].0 || s.diffs[id].status != Pending) ::
                    s'.diffs[id] == s.diffs[id])
  {
    hide NewRun;
  }

  lemma CommittedBatch(s: State, a: Action)
    requires a.Commit? && Enabled(s, a) && RunOk(s, s.runs[a.r])
    ensures BatchOk(Next(s, a), s.runs[a.r].batch)
  {
    var run := s.runs[a.r];
    var s' := Next(s, a);
    var no := run.batch.batchNo;
    hide Truthful;
    forall i | 0 <= i < |run.ids| ensures run.ids[i] in s'.diffs && s'.diffs[run.ids[i]] == run.rows[run.ids[i]] {
      assert run.ids[i] in run.rows;
    }
    forall id | id in s'.diffs && s'.diffs[id].batchNo == no ensures id in run.ids {
      assert id in run.rows || id in s.diffs;
    }
    assert RowsAre(s'.diffs, run.ids, no, run.found);
    TruthfulCount(run.batch, run.local, run.channel, run.found);
  }

  lemma TruthfulCount(b: Batch, local: seq<Row>, channel: seq<Row>, found: seq<Diff>)
    requires Truthful(b, local, channel, found)
    ensures b.diffCount == |found|
  {
  }

  lemma BatchKnown(s: State, b: Batch)
    requires BatchOk(s, b)
    ensures b.batchNo in s.reports
  {
  }

  lemma BatchesCommit(s: State, a: Action)
    requires RunsOk(s) && BatchesOk(s) && a.Commit? && Enabled(s, a)
    ensures BatchesOk(Next(s, a))
  {
    hide RowsAre, Truthful, BatchOk, HasBatch;
    var run := s.runs[a.r];
    var s' := Next(s, a);
    var no := run.batch.batchNo;
    assert RunOk(s, run);
    CommittedBatch(s, a);
    forall date | date in s.batches ensures BatchOk(s', s.batches[date]) {
      BatchKnown(s, s.batches[date]);
      BatchStable(s, s', s.batches[date]);
    }
    CommitFiles(s, a);
  }

  /** Every report has its batch after a commit, too. */
  lemma CommitFiles(s: State, a: Action)
    requires a.Commit? && Enabled(s, a) && s.runs[a.r].date !in s.batches
    requires forall k :: k in s.reports ==> HasBatch(s, k)
    ensures forall k :: k in Next(s, a).reports ==> HasBatch(Next(s, a), k)
  {
    var run := s.runs[a.r];
    var s' := Next(s, a);
    assert s'.batches[run.date].batchNo == run.batch.batchNo;
    forall k | k in s.reports ensures HasBatch(s', k) {
      var date :| date in s.batches && s.batches[date].batchNo == k;
      assert s'.batches[date].batchNo == k;
    }
  }

  lemma DateFree(s: State, run: Run)
    requires RunOk(s, run) && run.pc == InsertDiffs
    ensures run.date !in s.batches
  {
  }

  lemma EndedKept(s: State, a: Action)
    requires RunsOk(s) && EndedOk(s) && Enabled(s, a)
    ensures EndedOk(Next(s, a))
  {
    hide RunOk, NewRun;
    if a.Commit? {
      assert s.runs[a.r].date !in s.batches by { DateFree(s, s.runs[a.r]); }
    }
  }

  lemma HandledUpdate(s: State, h: nat)
    requires HandledOk(s) && Enabled(s, Update(h))
    ensures HandledOk(Next(s, Update(h)))
  {
    var s' := Next(s, Update(h));
    var n := |s.handled|;
    forall k | k in s'.diffs && s'.diffs[k].status != Pending ensures Settled(s'.handled, k) {
      if s.diffs[k].status == Pending {
        assert Won(s'.handled, n, k);
      } else {
        assert Settled(s.handled, k);
        var i :| 0 <= i < n && Won(s.handled, i, k);
        assert Won(s'.handled, i, k);
      }
    }
  }

  lemma HandledCommit(s: State, a: Action)
    requires HandledOk(s) && a.Commit? && Enabled(s, a) && RunOk(s, s.runs[a.r])
    ensures HandledOk(Next(s, a))
  {
    hide RowsAre, Truthful, Settled;
  }

  lemma HandledKept(s: State, a: Action)
    requires RunsOk(s) && HandledOk(s) && Enabled(s, a)
    ensures HandledOk(Next(s, a))
  {
    hide RunOk, Settled, NewRun;
    if a.Update? { HandledUpdate(s, a.h); } else if a.Commit? { HandledCommit(s, a); }
  }

  lemma NextKeeps(s: State, a: Action)
    requires Inv(s) && Enabled(s, a)
    ensures Inv(Next(s, a))
  {
    hide RunsOk, RunsApart, BatchesOk, EndedOk, HandledOk, Next, Enabled;
    ApartKept(s, a);
    EndedKept(s, a);
    HandledKept(s, a);
    match a {
      case Begin(_, _, _, _, _) => RunsBegin(s, a); BatchesQuiet(s, a);
      case Check(_) => RunsAdvance(s, a); BatchesQuiet(s, a);
      case Insert(_) => RunsAdvance(s, a); BatchesQuiet(s, a);
      case AddDiff(_) => RunsAddDiff(s, a); BatchesQuiet(s, a);
      case Commit(_) => RunsCommit(s, a); BatchesCommit(s, a);
      case Abort(_) => RunsQuiet(s, a); BatchesQuiet(s, a);
      case Lookup(_, _, _) => RunsQuiet(s, a); BatchesQuiet(s, a);
      case Update(_) => RunsQuiet(s, a); BatchesQuiet(s, a);
    }
  }

  lemma StartInv()
    ensures Inv(Start)
  {
  }

  lemma {:induction false} Invariant(run: seq<Action>)
    requires After(run).Some?
    ensures Inv(After(run).value)
  {
    hide Inv, Next, Enabled;
    if run == [] {
      StartInv();
    } else {
      Invariant(run[..|run|-1]);
      NextKeeps(After(run[..|run|-1]).value, run[|run|-1]);
    }
  }

  // ---- What every interleaving guarantees ----

  /** At most one run per bill date succeeds, whatever the interleaving, and its batch is the date's. */
  lemma OneBatchPerDate(run: seq<Action>, s: State, q: nat, r: nat)
    requires After(run) == Some(s) && q in s.ended && r in s.ended && q != r && s.ended[q].date == s.ended[r].date
    ensures !(s.ended[q].batchNo.Some? && s.ended[r].batchNo.Some?)
    ensures s.ended[r].batchNo.Some? ==>
              s.ended[r].date in s.batches && s.batches[s.ended[r].date].batchNo == s.ended[r].batchNo.value
  {
    hide After, RunsOk, RunsApart, BatchesOk, HandledOk;
    Invariant(run);
  }

  /** A committed batch sums up its comparison truthfully and has exactly the differences found, one
      row each, in order. */
  lemma BatchIsComplete(run: seq<Action>, s: State, date: nat)
    requires After(run) == Some(s) && date in s.batches
    ensures var b := s.batches[date];
            && b.batchNo in s.reports
            && var rep := s.reports[b.batchNo];
            && Summarizes(b, rep.local, rep.channel) && |rep.ids| == b.diffCount
            && RowsAre(s.diffs, rep.ids, b.batchNo, Classified(LastWins(rep.local), LastWins(rep.channel)))
  {
    hide After, RunsOk, RunsApart, EndedOk, HandledOk, Summarizes, RowsAre, Classified;
    Invariant(run);
    assert BatchOk(s, s.batches[date]);
  }

  /** Each committed difference row tells both sides' amounts, their difference and the order. */
  lemma BatchRowsTell(run: seq<Action>, s: State, date: nat, id: nat)
    requires After(run) == Some(s) && date in s.batches
    requires id in s.diffs && s.diffs[id].batchNo == s.batches[date].batchNo
    ensures s.batches[date].batchNo in s.reports
    ensures var rep := s.reports[s.batches[date].batchNo];
            Tells(s.diffs[id].diff, LastWins(rep.local), LastWins(rep.channel))
  {
    hide After, Classified, Summarizes;
    BatchIsComplete(run, s, date);
    var rep := s.reports[s.batches[date].batchNo];
    var i :| 0 <= i < |rep.ids| && rep.ids[i] == id;
    EntriesTell(LastWins(rep.local), LastWins(rep.channel), s.diffs[id].diff);
  }

  /** Every difference row belongs to a committed batch: a run that failed has left nothing. */
  lemma FailedRunLeavesNothing(run: seq<Action>, s: State, id: nat)
    requires After(run) == Some(s) && id in s.diffs
    ensures HasBatch(s, s.diffs[id].batchNo)
  {
    hide After, RunsOk, RunsApart, EndedOk, HandledOk, BatchOk;
    Invariant(run);
  }

  /** Of all the handling calls made on one difference exactly one succeeds, and its choice stands. */
  lemma HandledExactlyOnce(run: seq<Action>, s: State, k: nat)
    requires After(run) == Some(s) && k < |s.handled|
    ensures exists i :: 0 <= i < |s.handled| && Won(s.handled, i, s.handled[k].id)
              && (forall j :: 0 <= j < |s.handled| && Won(s.handled, j, s.handled[k].id) ==> j == i)
              && s.handled[k].id in s.diffs && s.diffs[s.handled[k].id].status == s.handled[i].target
  {
    hide After, RunsOk, RunsApart, EndedOk, BatchesOk;
    Invariant(run);
    var id := s.handled[k].id;
    assert Settled(s.handled, id);
    var i :| 0 <= i < |s.handled| && Won(s.handled, i, id);
    assert forall j :: 0 <= j < |s.handled| && Won(s.handled, j, id) ==> j == i;
  }

  // ---- What a handling call asked for is what it does ----

  lemma {:induction false} StillAsking(run: seq<Action>, h: nat, id: nat, choice: Choice, more: seq<Action>)
    requires After(run + [Lookup(h, id, choice)] + more).Some? && Update(h) !in more
    ensures var s := After(run + [Lookup(h, id, choice)] + more).value;
            h in s.handling && s.handling[h] == (id, if choice == Verify then Verified else Ignored) && id in s.diffs
    decreases |more|
  {
    var asked := run + [Lookup(h, id, choice)];
    if more == [] {
      assert asked + more == asked && asked[..|asked|-1] == run;
    } else {
      hide Next, Enabled;
      var front := more[..|more|-1];
      assert (asked + more)[..|asked + more|-1] == asked + front;
      StillAsking(run, h, id, choice, front);
      AskingStep(After(asked + front).value, more[|more|-1], h, id);
    }
  }

  lemma AskingStep(s: State, a: Action, h: nat, id: nat)
    requires Enabled(s, a) && h in s.handling && id in s.diffs && a != Update(h)
    ensures h in Next(s, a).handling && Next(s, a).handling[h] == s.handling[h] && id in Next(s, a).diffs
  {
    hide NewRun;
  }

  lemma {:induction false} StatusIsFinal(run: seq<Action>, more: seq<Action>, id: nat)
    requires After(run).Some? && After(run + more).Some?
    requires id in After(run).value.diffs && After(run).value.diffs[id].status != Pending
    ensures id in After(run + more).value.diffs
         && After(run + more).value.diffs[id].status == After(run).value.diffs[id].status
    decreases |more|
  {
    hide Next, Enabled, Inv;
    if more == [] {
      assert run + more == run;
    } else {
      var front, a := more[..|more|-1], more[|more|-1];
      assert (run + more)[..|run + more|-1] == run + front;
      StatusIsFinal(run, front, id);
      Invariant(run + front);
      StatusStep(After(run + front).value, a, id);
    }
  }

  lemma StatusStep(s: State, a: Action, id: nat)
    requires Inv(s) && Enabled(s, a) && id in s.diffs && s.diffs[id].status != Pending
    ensures id in Next(s, a).diffs && Next(s, a).diffs[id].status == s.diffs[id].status
  {
    hide RowsAre, Truthful, BatchesOk, EndedOk, HandledOk, RunsApart, Next, Enabled;
    if a.Commit? { CommitStatus(s, a, id); } else { QuietTables(s, a); }
  }

  lemma CommitStatus(s: State, a: Action, id: nat)
    requires RunsOk(s) && a.Commit? && Enabled(s, a) && id in s.diffs
    ensures id in Next(s, a).diffs && Next(s, a).diffs[id] == s.diffs[id]
  {
    hide RowsAre, Truthful;
    assert RunOk(s, s.runs[a.r]);
  }

  /** A handling call succeeds exactly if the difference is still pending when it updates; then its status
      is the one asked for, Verified for verify and Ignored for ignore, in every continuation. */
  lemma HandledAsAsked(run: seq<Action>, h: nat, id: nat, choice: Choice, more: seq<Action>, later: seq<Action>)
    requires Update(h) !in more
    requires After(run + [Lookup(h, id, choice)] + more).Some?
    requires After(run + [Lookup(h, id, choice)] + more + [Update(h)]).Some?
    requires After(run + [Lookup(h, id, choice)] + more + [Update(h)] + later).Some?
    ensures var before := After(run + [Lookup(h, id, choice)] + more).value;
            var after := After(run + [Lookup(h, id, choice)] + more + [Update(h)]).value;
            var end := After(run + [Lookup(h, id, choice)] + more + [Update(h)] + later).value;
            var target := if choice == Verify then Verified else Ignored;
            && id in before.diffs && id in end.diffs
            && after.handled == before.handled + [Handled(id, target, before.diffs[id].status == Pending)]
            && end.diffs[id].status == if before.diffs[id].status == Pending then target else before.diffs[id].status
  {
    hide Next, Enabled;
    StillAsking(run, h, id, choice, more);
    var asking := run + [Lookup(h, id, choice)] + more;
    assert (asking + [Update(h)])[..|asking + [Update(h)]|-1] == asking;
    UpdateTells(After(asking).value, h);
    StatusIsFinal(asking + [Update(h)], later, id);
  }

  lemma UpdateTells(s: State, h: nat)
    requires Enabled(s, Update(h)) && s.handling[h].1 != Pending
    ensures var (id, target) := s.handling[h];
            var s' := Next(s, Update(h));
            && id in s'.diffs && s'.diffs[id].status != Pending
            && s'.handled == s.handled + [Handled(id, target, s.diffs[id].status == Pending)]
            && s'.diffs[id].status == if s.diffs[id].status == Pending then target else s.diffs[id].status
  {
  }

  // ---- A run that finds its date free can commit ----

  lemma {:induction false} RunningIsNotEnded(run: seq<Action>)
    requires After(run).Some?
    ensures var s := After(run).value; forall r :: r in s.runs ==> r !in s.ended
  {
    hide NewRun;
    if run != [] { RunningIsNotEnded(run[..|run|-1]); }
  }

  /** Nobody has the date: no batch, and no other run past its insert. */
  predicate DateIsFree(s: State, r: nat) {
    r in s.runs && s.runs[r].date !in s.batches
    && forall q :: q in s.runs && q != r ==> !HoldsDate(s, q, s.runs[r].date)
  }

  predicate OwnSteps(more: seq<Action>, r: nat) {
    forall i :: 0 <= i < |more| ==> more[i] in {Check(r), Insert(r), AddDiff(r), Commit(r)}
  }

  function Left(run: Run): nat {
    (if |run.ids| < |run.found| then |run.found| - |run.ids| else 0)
    + (match run.pc case CheckDate => 3 case InsertBatch => 2 case InsertDiffs => 1)
  }

  function NextStep(run: Run, r: nat): Action {
    match run.pc
    case CheckDate => Check(r)
    case InsertBatch => Insert(r)
    case InsertDiffs => if |run.ids| < |run.found| then AddDiff(r) else Commit(r)
  }

  predicate CommittedBy(run: seq<Action>, more: seq<Action>, r: nat, date: nat, batch: Batch) {
    && OwnSteps(more, r) && After(run + more).Some?
    && date in After(run + more).value.batches && After(run + more).value.batches[date] == batch
  }

  lemma StepOfRun(s: State, r: nat)
    requires DateIsFree(s, r) && r !in s.ended
    ensures var a := NextStep(s.runs[r], r);
            && Enabled(s, a)
            && (if a.Commit? then
                  && s.runs[r].date in Next(s, a).batches
                  && Next(s, a).batches[s.runs[r].date] == s.runs[r].batch
                else && DateIsFree(Next(s, a), r) && Left(Next(s, a).runs[r]) < Left(s.runs[r])
                     && Next(s, a).runs[r].date == s.runs[r].date && Next(s, a).runs[r].batch == s.runs[r].batch)
  {
    KnownRun(s, r);
    hide DateIsFree, Enabled;
    var a := NextStep(s.runs[r], r);
    FreeStep(s, r, a);
  }

  lemma FreeStep(s: State, r: nat, a: Action)
    requires DateIsFree(s, r) && r !in s.ended && a == NextStep(s.runs[r], r)
    ensures Enabled(s, a) && (!a.Commit? ==> DateIsFree(Next(s, a), r))
  {
    if !a.Commit? {
      var s' := Next(s, a);
      forall q | q in s'.runs && q != r ensures !HoldsDate(s', q, s.runs[r].date) {
        assert !HoldsDate(s, q, s.runs[r].date);
      }
    }
  }

  /** From every reachable state, a run whose date is free reaches its commit by its own steps. */
  lemma {:induction false} FreeDateCommits(run: seq<Action>, r: nat)
    requires After(run).Some? && DateIsFree(After(run).value, r)
    ensures exists more :: CommittedBy(run, more, r, After(run).value.runs[r].date, After(run).value.runs[r].batch)
    decreases Left(After(run).value.runs[r])
  {
    hide Next, Enabled, DateIsFree, NextStep;
    var s := After(run).value;
    KnownRun(s, r);
    RunningIsNotEnded(run);
    StepOfRun(s, r);
    var a := NextStep(s.runs[r], r);
    OwnStep(s.runs[r], r);
    var next := run + [a];
    assert next[..|next|-1] == run;
    if a.Commit? {
      assert CommittedBy(run, [a], r, s.runs[r].date, s.runs[r].batch);
    } else {
      KnownRun(After(next).value, r);
      FreeDateCommits(next, r);
      var more :| CommittedBy(next, more, r, s.runs[r].date, s.runs[r].batch);
      assert run + ([a] + more) == next + more;
      assert CommittedBy(run, [a] + more, r, s.runs[r].date, s.runs[r].batch);
    }
  }

  lemma KnownRun(s: State, r: nat)
    requires DateIsFree(s, r)
    ensures r in s.runs
  {
  }

  lemma OwnStep(run: Run, r: nat)
    ensures NextStep(run, r) in {Check(r), Insert(r), AddDiff(r), Commit(r)}
  {
  }
}
