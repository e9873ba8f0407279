/** The ledger's payments as the local side of a reconciliation: what a batch then says about the bill. */
module Books {
  import opened Prelude
  import Tables
  import LedgerSpec
  import Ledger
  import LedgerTheorems
  import opened Reconcile
  import ReconcileRuns

  const DAY_SECONDS := 86400

  type Payments = map<nat, Tables.Payment>

  predicate OfDay(p: Tables.Payment, day: int) { day * DAY_SECONDS <= p.callbackTime < (day + 1) * DAY_SECONDS }

  /** Every payment counts for exactly one day, that of its Beijing time. */
  lemma OneDayEach(p: Tables.Payment, timestamp: int, day: int)
    requires p.callbackTime == Tables.BeijingTime(timestamp)
    ensures OfDay(p, day) <==> day == (timestamp + 28800) / 86400
  {
  }

  predicate Listed(rows: seq<Row>, t: nat) { exists i :: 0 <= i < |rows| && rows[i].tradeNo == t }

  /** The rows of the day's payments, each once, in whatever order: trade numbers are unique among payments. */
  predicate Lists(rows: seq<Row>, payments: Payments, day: int) {
    && DistinctRows(rows)
    && (forall i :: 0 <= i < |rows| ==> RowOfDay(rows[i], payments, day))
    && (forall t :: t in payments && OfDay(payments[t], day) ==> Listed(rows, t))
  }

  predicate RowOfDay(r: Row, payments: Payments, day: int) {
    && r.tradeNo in payments && OfDay(payments[r.tradeNo], day)
    && r.orderNo == payments[r.tradeNo].orderNo && r.amountFen == payments[r.tradeNo].amountFen
  }

  function DayAmounts(payments: Payments, day: int): map<nat, int> {
    map t | t in payments && OfDay(payments[t], day) :: payments[t].amountFen
  }

  /** What the comparison sees of the local side is the day's payments, no more and no less. */
  lemma ListedAmounts(rows: seq<Row>, payments: Payments, day: int)
    requires Lists(rows, payments, day)
    ensures Amounts(LastWins(rows)) == DayAmounts(payments, day)
    ensures forall t | t in LastWins(rows) ::
              RowOfDay(LastWins(rows)[t], payments, day) && LastWins(rows)[t].tradeNo == t
  {
    forall t ensures t in LastWins(rows) <==> Listed(rows, t) { LastWinsKeys(rows, t); }
    forall t | t in LastWins(rows)
      ensures RowOfDay(LastWins(rows)[t], payments, day) && LastWins(rows)[t].tradeNo == t
    {
      LastRowWins(rows, t);
    }
  }

  /** A batch of the ledger's payments against any bill. It is balanced exactly when the bill's last-wins
      amounts are those of the day's payments; its totals agree with its differences exactly when the
      bill overwrites nothing in sum; and the local total is that of the day's payments. */
  lemma LedgerAgainstBill(rows: seq<Row>, payments: Payments, day: int, channel: seq<Row>)
    requires Lists(rows, payments, day)
    ensures var diffs := Classified(LastWins(rows), LastWins(channel));
            && (diffs == [] <==> Amounts(LastWins(channel)) == DayAmounts(payments, day))
            && (TotalDiff(diffs) == RowTotal(rows) - RowTotal(channel) <==> Overwritten(channel) == 0)
    ensures RowTotal(rows) == MapSum(DayAmounts(payments, day))
  {
    hide Classified, TotalDiff;
    ListedAmounts(rows, payments, day);
    BalancedIffEqual(LastWins(rows), LastWins(channel));
    BatchTotalsAgree(rows, channel);
    NothingOverwritten(rows);
    TotalsOf(rows);
  }

  /** In every run of the ledger, a difference on the local side names a paid order and its amount, and
      a payment missing from the bill is always reported. */
  lemma MissingPaymentShows(init: Tables.Db, run: seq<Ledger.Action>, s: Ledger.State, day: int,
                            rows: seq<Row>, channel: seq<Row>, d: Diff)
    requires LedgerSpec.Initial(init) && Ledger.After(init, run) == Some(s) && Lists(rows, s.db.payments, day)
    requires d.kind == LocalOnly
    ensures d in Classified(LastWins(rows), LastWins(channel)) <==>
            && d.tradeNo in s.db.payments && OfDay(s.db.payments[d.tradeNo], day) && d.tradeNo !in LastWins(channel)
            && d.orderNo == s.db.payments[d.tradeNo].orderNo
            && d.localFen == d.diffFen == s.db.payments[d.tradeNo].amountFen && d.channelFen == 0
    ensures d in Classified(LastWins(rows), LastWins(channel)) ==>
            && LedgerSpec.IsPaid(s.db.orders, d.orderNo)
            && d.diffFen == s.db.orders[d.orderNo].totalAmountFen
  {
    hide LedgerSpec.Initial, Ledger.After, Classified;
    LedgerTheorems.PaidOrdersMatch(init, run, s);
    ListedAmounts(rows, s.db.payments, day);
    ClassifiedIs(LastWins(rows), LastWins(channel));
    assert d.tradeNo in LastWins(rows) <==> d.tradeNo in DayAmounts(s.db.payments, day);
  }

  /** The same for committed batches, over all interleavings of reconciliation runs. */
  lemma BatchOfLedger(run: seq<ReconcileRuns.Action>, s: ReconcileRuns.State, date: nat, payments: Payments, day: int)
    requires ReconcileRuns.After(run) == Some(s) && date in s.batches
    requires s.batches[date].batchNo in s.reports
    requires Lists(s.reports[s.batches[date].batchNo].local, payments, day)
    ensures var b := s.batches[date];
            var rep := s.reports[b.batchNo];
            && (b.balanced <==> Amounts(LastWins(rep.channel)) == DayAmounts(payments, day))
            && (Overwritten(rep.channel) == 0 <==>
                TotalDiff(Classified(LastWins(rep.local), LastWins(rep.channel))) == b.totalFen - b.channelFen)
            && b.totalFen == MapSum(DayAmounts(payments, day)) && b.totalCount == |DayAmounts(payments, day)|
            && b.channelFen == RowTotal(rep.channel) && b.channelCount == |rep.channel|
  {
    hide ReconcileRuns.After, Lists, Classified, TotalDiff;
    ReconcileRuns.BatchIsComplete(run, s, date);
    var rep := s.reports[s.batches[date].batchNo];
    LedgerAgainstBill(rep.local, payments, day, rep.channel);
    ListedAmounts(rep.local, payments, day);
    DistinctCount(rep.local) by { ListedDistinct(rep.local, payments, day); }
  }

  lemma ListedDistinct(rows: seq<Row>, payments: Payments, day: int)
    requires Lists(rows, payments, day)
    ensures DistinctRows(rows)
  {
  }

  lemma {:induction false} DistinctCount(rows: seq<Row>)
    requires DistinctRows(rows)
    ensures |Amounts(LastWins(rows))| == |rows|
  {
    if rows == [] {
      assert Amounts(LastWins(rows)) == map[];
    } else {
      var front, r := rows[..|rows|-1], rows[|rows|-1];
      DistinctCount(front);
      LastWinsKeys(front, r.tradeNo);
      assert Amounts(LastWins(rows)) == Amounts(LastWins(front))[r.tradeNo := r.amountFen];
    }
  }
}
