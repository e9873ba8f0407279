/** The consumer gets its work done: a queued notice without a record can always be brought to the merchant. */
module ConsumerProgress {
  import opened Prelude
  import opened Consumer

  lemma {:induction false} Join(s: State, first: seq<Action>, second: seq<Action>)
    requires After(s, first).Some?
    ensures After(s, first + second) == After(After(s, first).value, second)
    decreases |second|
  {
    hide Enabled, Next;
    if second == [] {
      assert first + second == first;
    } else {
      assert (first + second)[..|first + second|-1] == first + second[..|second|-1];
      Join(s, first, second[..|second|-1]);
    }
  }

  /** The merchant answers, nothing crashes and no connection breaks. */
  predicate Good(a: Action) { a.Deliver? || a.Insert? || a == Attempt(true) || a.Record? || a.Reply? }

  ghost predicate Leads(s: State, more: seq<Action>, s': State) {
    (forall i :: 0 <= i < |more| ==> Good(more[i])) && After(s, more) == Some(s') && Inv(s')
  }

  lemma LeadsJoin(s: State, first: seq<Action>, mid: State, second: seq<Action>, s': State)
    requires Leads(s, first, mid) && Leads(mid, second, s')
    ensures Leads(s, first + second, s')
  {
    hide After, Inv;
    Join(s, first, second);
  }

  lemma LeadsStep(s: State, a: Action)
    requires Inv(s) && Enabled(s, a) && Good(a)
    ensures Leads(s, [a], Next(s, a))
  {
    hide Inv, Enabled, Next;
    assert [a][..|[a]|-1] == [] && After(s, []) == Some(s);
    NextKeeps(s, a);
  }

  lemma LeadsInv(s: State, more: seq<Action>, s': State)
    requires Leads(s, more, s')
    ensures Inv(s')
  {
  }

  /** Not looked at yet, and in the queue. */
  predicate Untouched(s: State, b: Body) { b.Notice? && Of(s, b.msgId) == Untold && b in s.broker.queue }

  /** Recorded and about to be notified, or notified. */
  predicate Coming(s: State, m: nat) {
    || (WorkingOn(s, m) && (s.cur.value.phase.Trying? || s.cur.value.phase.Delivered?))
    || (m in s.recs && s.recs[m].status == Notified)
  }

  /** The next step of the delivery in hand. */
  function Step(s: State): Action
    requires s.cur.Some?
  {
    match s.cur.value.phase
    case Got => Insert(s.lastNo + 1)
    case Trying(_, _) => Attempt(true)
    case Decided(_) => Reply
    case _ => Record
  }

  function Rank(w: Work): nat {
    match w.phase
    case Got => 4
    case Trying(_, _) => 3
    case Decided(_) => 1
    case _ => 2
  }

  lemma StepAdvances(s: State)
    requires Inv(s) && s.cur.Some?
    ensures Enabled(s, Step(s)) && Good(Step(s))
    ensures Next(s, Step(s)).cur.Some? ==> Rank(Next(s, Step(s)).cur.value) < Rank(s.cur.value)
  {
    hide NumbersOk, StoriesOk, QueueOk, FromQueue, AckOk, DeadOk;
  }

  lemma ComingStays(s: State, m: nat)
    requires Inv(s) && s.cur.Some? && Coming(s, m) && Enabled(s, Step(s))
    ensures Coming(Next(s, Step(s)), m)
  {
    hide QueueOk, FromQueue, AckOk, DeadOk, NumberTaken;
    assert StoryOk(s, m);
    if m in s.recs && s.recs[m].status == Notified {
      hide Next, Enabled, NumbersOk, StoriesOk, WorkOk;
      StoriesKept(s, Step(s), m);
    }
  }

  /** A step on another delivery leaves the notice alone; a step on a copy of it takes it up. */
  lemma UntouchedStep(s: State, b: Body)
    requires Inv(s) && s.cur.Some? && Untouched(s, b) && Enabled(s, Step(s))
    ensures Untouched(Next(s, Step(s)), b) || Coming(Next(s, Step(s)), b.msgId)
  {
    hide NumbersOk, FromQueue, MarkSuccess, MarkFailed, Settled, InHand;
    var w, m := s.cur.value, b.msgId;
    assert StoryOk(s, m);
    if w.body.Notice? && w.body.msgId == m {
      TakenUp(s, b);
    } else {
      assert Working(s) ==> StoryOk(s, w.body.msgId);
      OthersUntouched(s, Step(s), m);
    }
  }

  lemma TakenUp(s: State, b: Body)
    requires Inv(s) && s.cur.Some? && Untouched(s, b) && s.cur.value.body.Notice? && s.cur.value.body.msgId == b.msgId
    ensures s.cur.value.phase == Got && Coming(Next(s, Insert(s.lastNo + 1)), b.msgId)
  {
    hide FromQueue;
    assert StoryOk(s, b.msgId);
  }

  lemma {:induction false} FinishComing(s: State, m: nat) returns (more: seq<Action>, s': State)
    requires Inv(s) && Coming(s, m)
    ensures Leads(s, more, s') && m in s'.recs && s'.recs[m].status == Notified
    decreases if s.cur.Some? then Rank(s.cur.value) else 0
  {
    hide Inv, Next, Enabled;
    if s.cur.None? {
      more, s' := [], s;
    } else {
      StepAdvances(s);
      ComingStays(s, m);
      LeadsStep(s, Step(s));
      LeadsInv(s, [Step(s)], Next(s, Step(s)));
      more, s' := FinishComing(Next(s, Step(s)), m);
      LeadsJoin(s, [Step(s)], Next(s, Step(s)), more, s');
      more := [Step(s)] + more;
    }
  }

  /** From any state, a queued notice without a record gets notified. */
  lemma {:induction false} GetsNotified(s: State, b: Body) returns (more: seq<Action>, s': State)
    requires Inv(s) && Untouched(s, b)
    ensures Leads(s, more, s') && b.msgId in s'.recs && s'.recs[b.msgId].status == Notified
    decreases Distance(s, b)
  {
    hide Inv, Coming, Next, Enabled;
    var a := if s.cur.Some? then Step(s) else Deliver(b);
    if s.cur.Some? {
      StepAdvances(s);
      UntouchedStep(s, b);
      if s.cur.value.body == b { TakenUp(s, b); }
    } else {
      DeliverNotice(s, b);
    }
    if s.cur.Some? { SameBody(s, a); }
    var s1 := Next(s, a);
    LeadsStep(s, a);
    LeadsInv(s, [a], s1);
    if Coming(s1, b.msgId) {
      more, s' := FinishComing(s1, b.msgId);
    } else {
      more, s' := GetsNotified(s1, b);
    }
    LeadsJoin(s, [a], s1, more, s');
    more := [a] + more;
  }

  /** Another delivery in hand, none, or the notice itself. */
  function Distance(s: State, b: Body): nat {
    if s.cur.None? then 6 else if s.cur.value.body == b then 5 else 6 + Rank(s.cur.value)
  }

  lemma SameBody(s: State, a: Action)
    requires Enabled(s, a) && s.cur.Some?
    ensures Next(s, a).cur.Some? ==> Next(s, a).cur.value.body == s.cur.value.body
  {
    hide InsertWithDedup, MarkSuccess, MarkFailed;
  }

  lemma DeliverNotice(s: State, b: Body)
    requires s.cur.None? && Untouched(s, b)
    ensures Enabled(s, Deliver(b)) && Untouched(Next(s, Deliver(b)), b)
    ensures Next(s, Deliver(b)).cur.Some? && Next(s, Deliver(b)).cur.value.body == b
  {
  }

  predicate NotifiedBy(run: seq<Action>, more: seq<Action>, m: nat) {
    && (forall i :: 0 <= i < |more| ==> Good(more[i]))
    && After(Start, run + more).Some? && m in After(Start, run + more).value.recs
    && After(Start, run + more).value.recs[m].status == Notified
  }

  /** In every reachable state a queued notice can be brought to the merchant and recorded as notified by a
      continuation without failures, if its message has no record yet. */
  lemma NoticeGetsThrough(run: seq<Action>, s: State, b: Body)
    requires After(Start, run) == Some(s) && b.Notice? && b in s.broker.queue && b.msgId !in s.recs
    ensures exists more :: NotifiedBy(run, more, b.msgId)
  {
    hide After, NumbersOk, WorkOk, QueueOk, FromQueue;
    Invariant(run);
    assert StoryOk(s, b.msgId);
    var more, s' := GetsNotified(s, b);
    Join(Start, run, more);
    assert NotifiedBy(run, more, b.msgId);
  }
}
