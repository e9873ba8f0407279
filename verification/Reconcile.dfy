/** End-of-day reconciliation: the keyed comparison of the local payments with the channel's bill. */
module Reconcile {
  import opened Prelude

  // Trade numbers matter only through their order, so a number stands for each.
  datatype Row = Row(tradeNo: nat, orderNo: nat, amountFen: int)
  datatype Kind = LocalOnly | ChannelOnly | AmountMismatch
  datatype Diff = Diff(kind: Kind, tradeNo: nat, orderNo: nat, localFen: int, channelFen: int, diffFen: int)

  // ---- What is compared ----

  /** The row of each trade number; a later row replaces an earlier one. */
  function LastWins(rows: seq<Row>): map<nat, Row> {
    if rows == [] then map[]
    else LastWins(rows[..|rows|-1])[rows[|rows|-1].tradeNo := rows[|rows|-1]]
  }

  function Amounts(m: map<nat, Row>): map<nat, int> { map k | k in m :: m[k].amountFen }

  /** The difference, if any, that a trade number stands for. */
  function DiffFor(l: map<nat, Row>, c: map<nat, Row>, k: nat): Option<Diff> {
    if k in l && k !in c then Some(Diff(LocalOnly, k, l[k].orderNo, l[k].amountFen, 0, l[k].amountFen))
    else if k !in l && k in c then Some(Diff(ChannelOnly, k, c[k].orderNo, 0, c[k].amountFen, -c[k].amountFen))
    else if k in l && k in c && l[k].amountFen != c[k].amountFen then
      Some(Diff(AmountMismatch, k, l[k].orderNo, l[k].amountFen, c[k].amountFen, l[k].amountFen - c[k].amountFen))
    else None
  }

  /** The differences of one kind, in the order of the given keys. */
  function Section(keys: seq<nat>, l: map<nat, Row>, c: map<nat, Row>, kind: Kind): seq<Diff> {
    if keys == [] then []
    else
      var d := DiffFor(l, c, keys[|keys|-1]);
      Section(keys[..|keys|-1], l, c, kind) + (if d.Some? && d.value.kind == kind then [d.value] else [])
  }

  function Classified(l: map<nat, Row>, c: map<nat, Row>): seq<Diff> {
    Section(Sorted(l.Keys), l, c, LocalOnly) + Section(Sorted(c.Keys), l, c, ChannelOnly)
    + Section(Sorted(l.Keys), l, c, AmountMismatch)
  }

  method IndexRows(rows: seq<Row>) returns (m: map<nat, Row>)
    ensures m == LastWins(rows)
  {
    m := map[];
    for i := 0 to |rows|
      invariant m == LastWins(rows[..i])
    {
      assert rows[..i + 1][..i] == rows[..i];
      m := m[rows[i].tradeNo := rows[i]];
    }
    assert rows[..|rows|] == rows;
  }

  method SortKeys(s: set<nat>) returns (keys: seq<nat>)
    ensures keys == Sorted(s)
  {
    keys := [];
    var todo := s;
    while todo != {}
      invariant keys + Sorted(todo) == Sorted(s)
      decreases |todo|
    {
      var k := Min(todo);
      keys := keys + [k];
      todo := todo - {k};
    }
  }

  method ListLocalOnly(keys: seq<nat>, l: map<nat, Row>, c: map<nat, Row>) returns (diffs: seq<Diff>)
    requires forall k :: k in keys ==> k in l
    ensures diffs == Section(keys, l, c, LocalOnly)
  {
    diffs := [];
    for i := 0 to |keys|
      invariant diffs == Section(keys[..i], l, c, LocalOnly)
    {
      var k := keys[i];
      assert keys[..i + 1][..i] == keys[..i];
      if k !in c {
        diffs := diffs + [Diff(LocalOnly, k, l[k].orderNo, l[k].amountFen, 0, l[k].amountFen)];
      }
    }
    assert keys[..|keys|] == keys;
  }

  method ListChannelOnly(keys: seq<nat>, l: map<nat, Row>, c: map<nat, Row>) returns (diffs: seq<Diff>)
    requires forall k :: k in keys ==> k in c
    ensures diffs == Section(keys, l, c, ChannelOnly)
  {
    diffs := [];
    for i := 0 to |keys|
      invariant diffs == Section(keys[..i], l, c, ChannelOnly)
    {
      var k := keys[i];
      assert keys[..i + 1][..i] == keys[..i];
      if k !in l {
        diffs := diffs + [Diff(ChannelOnly, k, c[k].orderNo, 0, c[k].amountFen, -c[k].amountFen)];
      }
    }
    assert keys[..|keys|] == keys;
  }

  method ListMismatches(keys: seq<nat>, l: map<nat, Row>, c: map<nat, Row>) returns (diffs: seq<Diff>)
    requires forall k :: k in keys ==> k in l
    ensures diffs == Section(keys, l, c, AmountMismatch)
  {
    diffs := [];
    for i := 0 to |keys|
      invariant diffs == Section(keys[..i], l, c, AmountMismatch)
    {
      var k := keys[i];
      assert keys[..i + 1][..i] == keys[..i];
      if k in c && c[k].amountFen != l[k].amountFen {
        diffs := diffs + [Diff(AmountMismatch, k, l[k].orderNo, l[k].amountFen, c[k].amountFen,
                               l[k].amountFen - c[k].amountFen)];
      }
    }
    assert keys[..|keys|] == keys;
  }

  /** The result is one list of three groups; what it amounts to is stated by the lemmas below. */
  method Classify(local: seq<Row>, channel: seq<Row>) returns (diffs: seq<Diff>)
    ensures diffs == Classified(LastWins(local), LastWins(channel))
  {
    var localBy := IndexRows(local);
    var channelBy := IndexRows(channel);
    var localKeys := SortKeys(localBy.Keys);
    var channelKeys := SortKeys(channelBy.Keys);
    SortedKeys(localBy.Keys);
    SortedKeys(channelBy.Keys);
    var localOnly := ListLocalOnly(localKeys, localBy, channelBy);
    var channelOnly := ListChannelOnly(channelKeys, localBy, channelBy);
    var mismatches := ListMismatches(localKeys, localBy, channelBy);
    diffs := localOnly + channelOnly + mismatches;
  }

  // ---- Complete and without repetition ----

  predicate DistinctTrades(diffs: seq<Diff>) {
    forall i, j :: 0 <= i < j < |diffs| ==> diffs[i].tradeNo != diffs[j].tradeNo
  }

  predicate Ascending(keys: seq<nat>) { forall i, j :: 0 <= i < j < |keys| ==> keys[i] < keys[j] }

  predicate SectionOk(s: seq<Diff>, keys: seq<nat>, l: map<nat, Row>, c: map<nat, Row>, kind: Kind) {
    && (forall i :: 0 <= i < |s| ==>
      s[i].tradeNo in keys && s[i].kind == kind && DiffFor(l, c, s[i].tradeNo) == Some(s[i]))
    && (forall i, j :: 0 <= i < j < |s| ==> s[i].tradeNo < s[j].tradeNo)
  }

  lemma {:induction false} SectionIs(keys: seq<nat>, l: map<nat, Row>, c: map<nat, Row>, kind: Kind)
    requires Ascending(keys)
    ensures SectionOk(Section(keys, l, c, kind), keys, l, c, kind)
  {
    if keys != [] {
      var front, last := keys[..|keys|-1], keys[|keys|-1];
      SectionIs(front, l, c, kind);
      assert forall k :: k in front ==> k < last && k in keys;
    }
  }

  lemma {:induction false} SectionHas(keys: seq<nat>, l: map<nat, Row>, c: map<nat, Row>, d: Diff)
    requires d.tradeNo in keys && DiffFor(l, c, d.tradeNo) == Some(d)
    ensures d in Section(keys, l, c, d.kind)
  {
    var front := keys[..|keys|-1];
    if d.tradeNo != keys[|keys|-1] {
      SectionHas(front, l, c, d);
    }
  }

  /** Exactly one entry for each trade number that differs and none for the others; local-only entries
      first, then channel-only, then mismatches, each group in ascending trade-number order. */
  lemma ClassifiedIs(l: map<nat, Row>, c: map<nat, Row>)
    ensures DistinctTrades(Classified(l, c))
    ensures forall d :: d in Classified(l, c) <==> DiffFor(l, c, d.tradeNo) == Some(d)
  {
    hide Section, Sorted;
    var lk, ck := Sorted(l.Keys), Sorted(c.Keys);
    SortedKeys(l.Keys);
    SortedKeys(c.Keys);
    SectionIs(lk, l, c, LocalOnly);
    SectionIs(ck, l, c, ChannelOnly);
    SectionIs(lk, l, c, AmountMismatch);
    var a, b, e := Section(lk, l, c, LocalOnly), Section(ck, l, c, ChannelOnly), Section(lk, l, c, AmountMismatch);
    forall d: Diff ensures d in a + b + e <==> DiffFor(l, c, d.tradeNo) == Some(d) {
      assert d in a + b + e <==> d in a || d in b || d in e;
      if DiffFor(l, c, d.tradeNo) == Some(d) { SectionHas(if d.kind == ChannelOnly then ck else lk, l, c, d); }
    }
    GroupsDistinct(a, b, e, l, c);
  }

  lemma GroupsDistinct(a: seq<Diff>, b: seq<Diff>, e: seq<Diff>, l: map<nat, Row>, c: map<nat, Row>)
    requires forall i :: 0 <= i < |a| ==> a[i].kind == LocalOnly && DiffFor(l, c, a[i].tradeNo) == Some(a[i])
    requires forall i :: 0 <= i < |b| ==> b[i].kind == ChannelOnly && DiffFor(l, c, b[i].tradeNo) == Some(b[i])
    requires forall i :: 0 <= i < |e| ==> e[i].kind == AmountMismatch && DiffFor(l, c, e[i].tradeNo) == Some(e[i])
    requires DistinctTrades(a) && DistinctTrades(b) && DistinctTrades(e)
    ensures DistinctTrades(a + b + e)
  {
    hide DiffFor;
    var s := a + b + e;
    forall i, j | 0 <= i < j < |s| ensures s[i].tradeNo != s[j].tradeNo {
      assert s[i].kind == s[j].kind || DiffFor(l, c, s[i].tradeNo) != DiffFor(l, c, s[j].tradeNo);
    }
  }

  /** What an entry says about the two sides: both amounts as they are there, 0 for a missing one, their
      difference, and the order number of the local row if there is one. */
  predicate Tells(d: Diff, l: map<nat, Row>, c: map<nat, Row>) {
    var k := d.tradeNo;
    && (k in l || k in c)
    && d.localFen == (if k in l then l[k].amountFen else 0)
    && d.channelFen == (if k in c then c[k].amountFen else 0)
    && d.diffFen == d.localFen - d.channelFen
    && d.orderNo == (if k in l then l[k].orderNo else c[k].orderNo)
    && (d.kind == LocalOnly <==> k !in c) && (d.kind == ChannelOnly <==> k !in l)
    && (d.kind == AmountMismatch ==> l[k].amountFen != c[k].amountFen)
  }

  lemma EntriesTell(l: map<nat, Row>, c: map<nat, Row>, d: Diff)
    requires d in Classified(l, c)
    ensures Tells(d, l, c)
  {
    ClassifiedIs(l, c);
    hide Classified;
  }

  function Group(kind: Kind): nat { match kind case LocalOnly => 0 case ChannelOnly => 1 case AmountMismatch => 2 }

  /** Local-only entries come first, then channel-only, then mismatches, each by ascending trade number;
      so the list is determined by its entries. */
  lemma ClassifiedOrder(l: map<nat, Row>, c: map<nat, Row>, i: nat, j: nat)
    requires i < j < |Classified(l, c)|
    ensures var a, b := Classified(l, c)[i], Classified(l, c)[j];
            Group(a.kind) < Group(b.kind) || (a.kind == b.kind && a.tradeNo < b.tradeNo)
  {
    hide Section, Sorted;
    var lk, ck := Sorted(l.Keys), Sorted(c.Keys);
    SortedKeys(l.Keys);
    SortedKeys(c.Keys);
    SectionIs(lk, l, c, LocalOnly);
    SectionIs(ck, l, c, ChannelOnly);
    SectionIs(lk, l, c, AmountMismatch);
  }

  // ---- The differences are a patch ----

  function Patched(v: Option<int>, d: Diff): Option<int> {
    match d.kind
    case LocalOnly => Some(d.diffFen)
    case ChannelOnly => None
    case AmountMismatch => if v.Some? then Some(v.value + d.diffFen) else None
  }

  function PatchOne(m: map<nat, int>, d: Diff): map<nat, int> {
    var v := Patched(Lookup(m, d.tradeNo), d);
    if v.Some? then m[d.tradeNo := v.value] else m - {d.tradeNo}
  }

  function Lookup(m: map<nat, int>, k: nat): Option<int> { if k in m then Some(m[k]) else None }

  function Patch(m: map<nat, int>, diffs: seq<Diff>): map<nat, int> {
    if diffs == [] then m else PatchOne(Patch(m, diffs[..|diffs|-1]), diffs[|diffs|-1])
  }

  function TotalDiff(diffs: seq<Diff>): int {
    if diffs == [] then 0 else TotalDiff(diffs[..|diffs|-1]) + diffs[|diffs|-1].diffFen
  }

  predicate Mentions(diffs: seq<Diff>, k: nat) { exists i :: 0 <= i < |diffs| && diffs[i].tradeNo == k }

  lemma {:induction false} PatchOutside(m: map<nat, int>, diffs: seq<Diff>, k: nat)
    requires !Mentions(diffs, k)
    ensures Lookup(Patch(m, diffs), k) == Lookup(m, k)
  {
    if diffs != [] {
      var front := diffs[..|diffs|-1];
      assert forall i :: 0 <= i < |front| ==> front[i] == diffs[i];
      PatchOutside(m, front, k);
    }
  }

  lemma {:induction false} PatchInside(m: map<nat, int>, diffs: seq<Diff>, i: nat)
    requires DistinctTrades(diffs) && i < |diffs|
    ensures Lookup(Patch(m, diffs), diffs[i].tradeNo) == Patched(Lookup(m, diffs[i].tradeNo), diffs[i])
  {
    var front := diffs[..|diffs|-1];
    if i < |front| {
      PatchInside(m, front, i);
      assert front[i] == diffs[i];
    } else {
      PatchOutside(m, front, diffs[i].tradeNo);
    }
  }

  lemma Unmentioned(l: map<nat, Row>, c: map<nat, Row>, k: nat)
    requires !Mentions(Classified(l, c), k)
    ensures DiffFor(l, c, k).None?
  {
    ClassifiedIs(l, c);
    hide Classified;
  }

  /** Applying the differences to the channel's amounts yields exactly the local amounts. */
  lemma PatchRestoresLocal(l: map<nat, Row>, c: map<nat, Row>)
    ensures Patch(Amounts(c), Classified(l, c)) == Amounts(l)
  {
    var diffs := Classified(l, c);
    ClassifiedIs(l, c);
    hide Classified;
    forall k ensures Lookup(Patch(Amounts(c), diffs), k) == Lookup(Amounts(l), k) {
      if Mentions(diffs, k) {
        var i :| 0 <= i < |diffs| && diffs[i].tradeNo == k;
        PatchInside(Amounts(c), diffs, i);
        assert diffs[i] in diffs;
      } else {
        PatchOutside(Amounts(c), diffs, k);
        Unmentioned(l, c, k);
      }
    }
    SameLookups(Patch(Amounts(c), diffs), Amounts(l));
  }

  lemma SameLookups(a: map<nat, int>, b: map<nat, int>)
    requires forall k :: Lookup(a, k) == Lookup(b, k)
    ensures a == b
  {
    forall k ensures (k in a <==> k in b) && (k in a ==> a[k] == b[k]) { assert Lookup(a, k) == Lookup(b, k); }
  }

  /** Nothing differs exactly when both sides have the same amounts: that is when a batch is balanced. */
  lemma BalancedIffEqual(l: map<nat, Row>, c: map<nat, Row>)
    ensures Classified(l, c) == [] <==> Amounts(l) == Amounts(c)
  {
    ClassifiedIs(l, c);
    PatchRestoresLocal(l, c);
    hide Classified;
    if Classified(l, c) != [] {
      var d := Classified(l, c)[0];
      assert d in Classified(l, c);
      assert Lookup(Amounts(l), d.tradeNo) != Lookup(Amounts(c), d.tradeNo);
    }
  }

  function MirrorKind(k: Kind): Kind {
    match k case LocalOnly => ChannelOnly case ChannelOnly => LocalOnly case AmountMismatch => AmountMismatch
  }

  /** Swapping the two sides swaps the kinds and the amounts and negates every difference; only the
      order number of a mismatch, always taken from the first side, may change. */
  lemma SwapMirrors(l: map<nat, Row>, c: map<nat, Row>, d: Diff)
    requires d in Classified(l, c)
    ensures exists e :: e in Classified(c, l)
              && e == Diff(MirrorKind(d.kind), d.tradeNo, e.orderNo, d.channelFen, d.localFen, -d.diffFen)
              && (d.kind != AmountMismatch ==> e.orderNo == d.orderNo)
  {
    ClassifiedIs(l, c);
    ClassifiedIs(c, l);
    hide Classified;
    assert DiffFor(c, l, d.tradeNo).Some?;
    var e := DiffFor(c, l, d.tradeNo).value;
    assert e in Classified(c, l);
  }

  // ---- Totals ----

  /** Each difference can be applied where it stands. */
  predicate Fits(m: map<nat, int>, d: Diff) {
    match d.kind
    case LocalOnly => d.tradeNo !in m
    case ChannelOnly => d.tradeNo in m && d.diffFen == -m[d.tradeNo]
    case AmountMismatch => d.tradeNo in m
  }

  lemma PatchOneSum(m: map<nat, int>, d: Diff)
    requires Fits(m, d)
    ensures MapSum(PatchOne(m, d)) == MapSum(m) + d.diffFen
  {
    var k := d.tradeNo;
    match d.kind {
      case LocalOnly => MapSumAdd(m, k, d.diffFen);
      case ChannelOnly => MapSumRemove(m, k);
      case AmountMismatch =>
        var m' := PatchOne(m, d);
        MapSumRemove(m, k);
        MapSumRemove(m', k);
        assert m' - {k} == m - {k};
    }
  }

  lemma {:induction false} PatchSum(m: map<nat, int>, diffs: seq<Diff>)
    requires DistinctTrades(diffs) && forall i :: 0 <= i < |diffs| ==> Fits(m, diffs[i])
    ensures MapSum(Patch(m, diffs)) == MapSum(m) + TotalDiff(diffs)
  {
    if diffs != [] {
      var front, d := diffs[..|diffs|-1], diffs[|diffs|-1];
      PatchSum(m, front);
      PatchOutside(m, front, d.tradeNo);
      assert Fits(Patch(m, front), d);
      PatchOneSum(Patch(m, front), d);
    }
  }

  /** The differences add up to what the local side has more than the channel's. */
  lemma DiffsSumUp(l: map<nat, Row>, c: map<nat, Row>)
    ensures TotalDiff(Classified(l, c)) == MapSum(Amounts(l)) - MapSum(Amounts(c))
  {
    ClassifiedIs(l, c);
    PatchRestoresLocal(l, c);
    hide Classified;
    var diffs := Classified(l, c);
    forall i | 0 <= i < |diffs| ensures Fits(Amounts(c), diffs[i]) { assert diffs[i] in diffs; }
    PatchSum(Amounts(c), diffs);
  }

  function RowTotal(rows: seq<Row>): int {
    if rows == [] then 0 else RowTotal(rows[..|rows|-1]) + rows[|rows|-1].amountFen
  }

  /** What repeated trade numbers overwrite: counted in the batch total, lost to the comparison. */
  function Overwritten(rows: seq<Row>): int {
    if rows == [] then 0
    else
      var front, r := rows[..|rows|-1], rows[|rows|-1];
      Overwritten(front) + (if r.tradeNo in LastWins(front) then LastWins(front)[r.tradeNo].amountFen else 0)
  }

  lemma {:induction false} TotalsOf(rows: seq<Row>)
    ensures MapSum(Amounts(LastWins(rows))) == RowTotal(rows) - Overwritten(rows)
  {
    if rows != [] {
      var front, r := rows[..|rows|-1], rows[|rows|-1];
      TotalsOf(front);
      var m, m' := Amounts(LastWins(front)), Amounts(LastWins(rows));
      if r.tradeNo in m {
        MapSumRemove(m, r.tradeNo);
        MapSumRemove(m', r.tradeNo);
        assert m' - {r.tradeNo} == m - {r.tradeNo};
      } else {
        assert m' == m[r.tradeNo := r.amountFen];
        MapSumAdd(m, r.tradeNo, r.amountFen);
      }
    } else {
      assert Amounts(LastWins(rows)) == map[];
    }
  }

  predicate DistinctRows(rows: seq<Row>) { forall i, j :: 0 <= i < j < |rows| ==> rows[i].tradeNo != rows[j].tradeNo }

  lemma {:induction false} LastWinsKeys(rows: seq<Row>, k: nat)
    ensures k in LastWins(rows) <==> exists i :: 0 <= i < |rows| && rows[i].tradeNo == k
  {
    if rows != [] {
      var front := rows[..|rows|-1];
      LastWinsKeys(front, k);
      if k in LastWins(front) { var i :| 0 <= i < |front| && front[i].tradeNo == k; assert rows[i].tradeNo == k; }
      if i :| 0 <= i < |rows| && rows[i].tradeNo == k { if i < |front| { assert front[i].tradeNo == k; } }
    }
  }

  /** The row kept for a trade number is the last one with it. */
  lemma {:induction false} LastRowWins(rows: seq<Row>, k: nat)
    requires k in LastWins(rows)
    ensures exists i :: IsLast(rows, i, k) && LastWins(rows)[k] == rows[i]
  {
    var front := rows[..|rows|-1];
    if rows[|rows|-1].tradeNo == k {
      assert IsLast(rows, |rows| - 1, k);
    } else {
      LastRowWins(front, k);
      var i :| IsLast(front, i, k) && LastWins(front)[k] == front[i];
      assert IsLast(rows, i, k) && rows[i] == front[i];
    }
  }

  predicate IsLast(rows: seq<Row>, i: int, k: nat) {
    0 <= i < |rows| && rows[i].tradeNo == k && forall j :: i < j < |rows| ==> rows[j].tradeNo != k
  }

  lemma {:induction false} NothingOverwritten(rows: seq<Row>)
    requires DistinctRows(rows)
    ensures Overwritten(rows) == 0
  {
    if rows != [] {
      NothingOverwritten(rows[..|rows|-1]);
      LastWinsKeys(rows[..|rows|-1], rows[|rows|-1].tradeNo);
    }
  }

  /** The batch's own totals agree with its differences exactly when both sides overwrote the same
      amount; in particular whenever no side repeats a trade number. */
  lemma BatchTotalsAgree(local: seq<Row>, channel: seq<Row>)
    ensures TotalDiff(Classified(LastWins(local), LastWins(channel))) == RowTotal(local) - RowTotal(channel)
            <==> Overwritten(local) == Overwritten(channel)
    ensures DistinctRows(local) && DistinctRows(channel) ==> Overwritten(local) == Overwritten(channel)
  {
    hide Classified;
    DiffsSumUp(LastWins(local), LastWins(channel));
    TotalsOf(local);
    TotalsOf(channel);
    if DistinctRows(local) && DistinctRows(channel) {
      NothingOverwritten(local);
      NothingOverwritten(channel);
    }
  }

  /** A bill that repeats a line: the batch totals differ although nothing is reported. */
  lemma RepeatedLineHides()
    ensures var r := Row(1, 1, 100);
            Classified(LastWins([r]), LastWins([r, r])) == [] && RowTotal([r]) - RowTotal([r, r]) == -100
  {
    var r := Row(1, 1, 100);
    assert [r, r][..1] == [r] && [r][..0] == [];
    BalancedIffEqual(LastWins([r]), LastWins([r, r]));
  }

  // ---- One batch ----

  datatype Batch = Batch(batchNo: nat, totalCount: nat, totalFen: int, channelCount: nat, channelFen: int,
                         diffCount: nat, balanced: bool)

  /** The summary row of a batch is true to what was compared. */
  predicate Summarizes(b: Batch, local: seq<Row>, channel: seq<Row>) {
    && b.totalCount == |local| && b.totalFen == RowTotal(local)
    && b.channelCount == |channel| && b.channelFen == RowTotal(channel)
    && b.diffCount == |Classified(LastWins(local), LastWins(channel))|
    && (b.balanced <==> Amounts(LastWins(local)) == Amounts(LastWins(channel)))
  }

  method SumRows(rows: seq<Row>) returns (total: int)
    ensures total == RowTotal(rows)
  {
    total := 0;
    for i := 0 to |rows|
      invariant total == RowTotal(rows[..i])
    {
      assert rows[..i + 1][..i] == rows[..i];
      total := total + rows[i].amountFen;
    }
    assert rows[..|rows|] == rows;
  }

  method Summarize(local: seq<Row>, channel: seq<Row>, batchNo: nat) returns (b: Batch, diffs: seq<Diff>)
    ensures Summarizes(b, local, channel) && b.batchNo == batchNo
    ensures diffs == Classified(LastWins(local), LastWins(channel))
  {
    diffs := Classify(local, channel);
    var localTotal := SumRows(local);
    var channelTotal := SumRows(channel);
    BalancedIffEqual(LastWins(local), LastWins(channel));
    b := Batch(batchNo, |local|, localTotal, |channel|, channelTotal, |diffs|, diffs == []);
  }
}
