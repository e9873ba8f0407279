/** Snowflake numbers: 41 bits of milliseconds since 2024, 5 of datacenter, 5 of worker, 12 of
    sequence. The clock is an oracle: each call gets the readings it would see, in order. */
module IdGenerator {
  import opened Prelude
  import opened Decimal
  import RequestIds

  const EPOCH_MS := 1704067200000
  const MAX_SEQUENCE := 4095
  const TIMESTAMP_UNIT := 0x40_0000
  const DATACENTER_UNIT := 0x2_0000
  const WORKER_UNIT := 0x1000
  const ERA_MS := 0x200_0000_0000

  function Pack(ms: int, sequence: int): int {
    (ms - EPOCH_MS) * TIMESTAMP_UNIT + DATACENTER_UNIT + WORKER_UNIT + sequence
  }

  /** The shifts and ors of the source, on 64-bit words: the four fields do not overlap, so the ors
      add, nothing is shifted out, and the sign bit stays clear. */
  lemma PackIsSum(t: bv64, s: bv64)
    requires t < 0x200_0000_0000 && s < 0x1000
    ensures (t << 22) | (1 << 17) | (1 << 12) | s == t * 0x40_0000 + 0x2_0000 + 0x1000 + s
    ensures ((t << 22) | (1 << 17) | (1 << 12) | s) >> 22 == t
    ensures ((t << 22) | (1 << 17) | (1 << 12) | s) & 0xFFF == s
    ensures (t << 22) | (1 << 17) | (1 << 12) | s < 0x8000_0000_0000_0000
  {
  }

  datatype State = State(last: int, sequence: int)
  datatype Draw = Id(id: int) | Refused | Spinning

  /** The reading that ends the wait for the next millisecond, if it has come yet. */
  function FirstAfter(clock: seq<int>, last: int): Option<int> {
    if clock == [] then None else if clock[0] > last then Some(clock[0]) else FirstAfter(clock[1..], last)
  }

  function DrawNext(g: State, clock: seq<int>): (State, Draw) {
    if clock == [] then (g, Spinning)
    else
      var now := clock[0];
      if now < g.last then (g, Refused)
      else if now > g.last then (State(now, 0), Id(Pack(now, 0)))
      else if g.sequence < MAX_SEQUENCE then (State(now, g.sequence + 1), Id(Pack(now, g.sequence + 1)))
      else
        var next := FirstAfter(clock[1..], g.last);
        if next.None? then (State(g.last, 0), Spinning) else (State(next.value, 0), Id(Pack(next.value, 0)))
  }

  class Generator {
    var lastTimestampMs: int
    var sequence: int

    ghost function Value(): State
      reads this
    {
      State(lastTimestampMs, sequence)
    }

    ghost predicate Valid()
      reads this
    {
      0 <= sequence <= MAX_SEQUENCE
    }

    constructor ()
      ensures Valid() && Value() == State(-1, 0)
    {
      lastTimestampMs, sequence := -1, 0;
    }

    method NextId(clock: seq<int>) returns (r: Draw)
      requires Valid()
      modifies this
      ensures Valid() && (Value(), r) == DrawNext(old(Value()), clock)
    {
      if clock == [] {
        return Spinning;
      }
      var nowMs := clock[0];
      if nowMs < lastTimestampMs {
        return Refused;
      }
      if nowMs == lastTimestampMs {
        sequence := (sequence + 1) % (MAX_SEQUENCE + 1);
        if sequence == 0 {
          var next := WaitNextMs(lastTimestampMs, clock[1..]);
          if next.None? {
            return Spinning;
          }
          nowMs := next.value;
        }
      } else {
        sequence := 0;
      }
      lastTimestampMs := nowMs;
      r := Id(Pack(nowMs, sequence));
    }
  }

  method WaitNextMs(lastMs: int, clock: seq<int>) returns (ts: Option<int>)
    ensures ts == FirstAfter(clock, lastMs)
  {
    var i := 0;
    while i < |clock| && clock[i] <= lastMs
      invariant 0 <= i <= |clock| && FirstAfter(clock[i..], lastMs) == FirstAfter(clock, lastMs)
    {
      assert clock[i..][1..] == clock[i + 1..];
      i := i + 1;
    }
    ts := if i < |clock| then Some(clock[i]) else None;
  }

  // ---- Whole runs ----

  /** The ids returned by successive calls; a call still waiting for the clock blocks the rest. */
  function Ids(g: State, calls: seq<seq<int>>): seq<int>
    decreases |calls|
  {
    if calls == [] then []
    else
      var (g', r) := DrawNext(g, calls[0]);
      match r
      case Id(id) => [id] + Ids(g', calls[1..])
      case Refused => Ids(g', calls[1..])
      case Spinning => []
  }

  predicate InEra(clock: seq<int>) { forall i :: 0 <= i < |clock| ==> EPOCH_MS <= clock[i] < EPOCH_MS + ERA_MS }

  predicate Ok(g: State) {
    0 <= g.sequence <= MAX_SEQUENCE && (g.last == -1 || EPOCH_MS <= g.last < EPOCH_MS + ERA_MS)
  }

  /** A number no id returned so far exceeds. */
  function Highest(g: State): int { if g.last == -1 then -1 else Pack(g.last, g.sequence) }

  lemma {:induction false} FirstAfterOk(clock: seq<int>, last: int)
    requires InEra(clock) && FirstAfter(clock, last).Some?
    ensures var ts := FirstAfter(clock, last).value; ts > last && ts in clock && EPOCH_MS <= ts < EPOCH_MS + ERA_MS
  {
    if clock[0] <= last { FirstAfterOk(clock[1..], last); }
  }

  lemma DrawAdvances(g: State, clock: seq<int>)
    requires Ok(g) && InEra(clock)
    ensures var (g', r) := DrawNext(g, clock);
            match r
            case Id(id) => Ok(g') && id == Highest(g') > Highest(g) && 0 <= id < 0x8000_0000_0000_0000
            case Refused => g' == g
            case Spinning => Ok(g')
  {
    if clock != [] && clock[0] == g.last && g.sequence == MAX_SEQUENCE && FirstAfter(clock[1..], g.last).Some? {
      FirstAfterOk(clock[1..], g.last);
    }
  }

  /** What one draw does, told by its first reading: refused exactly when it lies before the last
      millisecond; the first id of a new millisecond; the very next id within the same millisecond; and
      after the 4096th a wait for the first reading of a later one. */
  lemma DrawTells(g: State, clock: seq<int>)
    requires Ok(g) && InEra(clock) && clock != []
    ensures var (g', r) := DrawNext(g, clock);
            && (r == Refused <==> clock[0] < g.last)
            && (clock[0] > g.last ==> r.Id? && r.id % 4096 == 0 && r.id / 0x40_0000 + EPOCH_MS == clock[0])
            && (clock[0] == g.last && g.sequence < 4095 ==> r == Id(Highest(g) + 1))
            && (clock[0] == g.last && g.sequence == 4095 ==>
                  match r
                  case Id(id) => Waited(clock, g.last, id / 0x40_0000 + EPOCH_MS) && id % 4096 == 0
                  case Refused => false
                  case Spinning => forall i :: 0 <= i < |clock| ==> clock[i] <= g.last)
  {
    var now := clock[0];
    if now > g.last {
      FieldsRecovered(now, 0);
    } else if now == g.last && g.sequence == MAX_SEQUENCE {
      FirstAfterIs(clock[1..], g.last);
      if FirstAfter(clock[1..], g.last).Some? {
        var ts := FirstAfter(clock[1..], g.last).value;
        var i :| FirstAbove(clock[1..], g.last, i) && clock[1..][i] == ts;
        AboveShift(clock, g.last, i);
        FieldsRecovered(ts, 0);
      } else {
        assert forall i :: 1 <= i < |clock| ==> clock[i] == clock[1..][i - 1];
      }
    }
  }

  predicate FirstAbove(clock: seq<int>, last: int, i: int) {
    0 <= i < |clock| && clock[i] > last && forall j :: 0 <= j < i ==> clock[j] <= last
  }

  ghost predicate Waited(clock: seq<int>, last: int, ts: int) {
    exists i :: FirstAbove(clock, last, i) && clock[i] == ts
  }

  lemma AboveShift(clock: seq<int>, last: int, i: int)
    requires clock != [] && clock[0] <= last && FirstAbove(clock[1..], last, i)
    ensures FirstAbove(clock, last, i + 1) && clock[i + 1] == clock[1..][i]
  {
    assert forall j :: 1 <= j < |clock| ==> clock[j] == clock[1..][j - 1];
  }

  lemma {:induction false} FirstAfterIs(clock: seq<int>, last: int)
    ensures FirstAfter(clock, last).None? <==> forall i :: 0 <= i < |clock| ==> clock[i] <= last
    ensures FirstAfter(clock, last).Some? ==> Waited(clock, last, FirstAfter(clock, last).value)
  {
    if clock != [] {
      if clock[0] > last {
        assert FirstAbove(clock, last, 0);
      } else {
        FirstAfterIs(clock[1..], last);
        assert forall i :: 1 <= i < |clock| ==> clock[i] == clock[1..][i - 1];
        assert forall i :: 0 <= i < |clock| - 1 ==> clock[1..][i] == clock[i + 1];
        if FirstAfter(clock, last).Some? {
          var i :| FirstAbove(clock[1..], last, i) && clock[1..][i] == FirstAfter(clock, last).value;
          AboveShift(clock, last, i);
        }
      }
    }
  }

  predicate Rising(ids: seq<int>, low: int) {
    && (forall i :: 0 <= i < |ids| ==> low < ids[i] && 0 <= ids[i] < 0x8000_0000_0000_0000)
    && (forall i, j :: 0 <= i < j < |ids| ==> ids[i] < ids[j])
  }

  lemma RisingCons(id: int, ids: seq<int>, low: int)
    requires Rising(ids, id) && low < id && 0 <= id < 0x8000_0000_0000_0000
    ensures Rising([id] + ids, low)
  {
  }

  /** Within one process run the ids are non-negative 64-bit numbers and strictly increase, across
      sequence rollovers, waits for the clock and refusals after the clock stepped back. */
  lemma {:induction false} IdsIncrease(g: State, calls: seq<seq<int>>)
    requires Ok(g) && forall i :: 0 <= i < |calls| ==> InEra(calls[i])
    ensures Rising(Ids(g, calls), Highest(g))
    decreases |calls|
  {
    if calls != [] {
      DrawAdvances(g, calls[0]);
      var d := DrawNext(g, calls[0]);
      if !d.1.Spinning? {
        IdsIncrease(d.0, calls[1..]);
        if d.1.Id? { RisingCons(d.1.id, Ids(d.0, calls[1..]), Highest(g)); }
      }
    }
  }

  /** The packed fields can be read back. */
  lemma FieldsRecovered(ms: int, sequence: int)
    requires EPOCH_MS <= ms < EPOCH_MS + ERA_MS && 0 <= sequence <= MAX_SEQUENCE
    ensures var id := Pack(ms, sequence);
            && id / TIMESTAMP_UNIT + EPOCH_MS == ms && id % WORKER_UNIT == sequence
            && id / DATACENTER_UNIT % 32 == 1 && id / WORKER_UNIT % 32 == 1
  {
    var id := Pack(ms, sequence);
    var t := ms - EPOCH_MS;
    assert id == t * TIMESTAMP_UNIT + (DATACENTER_UNIT + WORKER_UNIT + sequence);
    assert id / DATACENTER_UNIT == t * 32 + 1;
    assert id / WORKER_UNIT == (t * 32 + 1) * 32 + 1;
  }

  const FIRST_LONG_MS := 238418580

  /** An id serves as X-Request-Id exactly when it was drawn at least FIRST_LONG_MS after the epoch:
      from then on it always prints as 16 to 19 digits. */
  lemma IdIsRequestId(ms: int, sequence: int)
    requires EPOCH_MS <= ms < EPOCH_MS + ERA_MS && 0 <= sequence <= MAX_SEQUENCE
    ensures RequestIds.Accepted(Digits(Pack(ms, sequence))) <==> ms >= EPOCH_MS + FIRST_LONG_MS
    ensures |Digits(Pack(ms, sequence))| <= 19
  {
    var id := Pack(ms, sequence);
    DigitsValue(id);
    DigitsLength(id, 14);
    DigitsLength(id, 18);
    PowersOfTen();
  }

  lemma PowersOfTen()
    ensures Power10(15) == 1_000_000_000_000_000 && Power10(19) == 10_000_000_000_000_000_000
  {
    assert Power10(5) == 100_000;
    assert Power10(10) == 10_000_000_000;
    assert Power10(15) == 1_000_000_000_000_000;
  }
}
