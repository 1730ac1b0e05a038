/** The capacity is a hard limit under any number of concurrent producers, and no slot below it is refused. */
module Capacity {
  import opened Sums
  import opened Memory
  import opened Programs
  import opened Machine
  import opened Custody
  import opened Ledger

  predicate CallBounded(call: Call, capacity: nat) {
    && (call.pc.Swap? ==> call.pc.current < capacity)
    && (call.pc.Reserve? ==> capacity == 0)
    && (call.pc.LoadCount? || call.pc.Swap? || call.pc.NoteFull? || call.pc == Returned(QueueFull) ==> capacity > 0)
  }

  ghost predicate Bounded(s: State) {
    && (s.cfg.capacity > 0 ==> s.mem.inFlight <= s.cfg.capacity)
    && (forall c :: 0 <= c < |s.calls| ==> CallBounded(s.calls[c], s.cfg.capacity))
  }

  lemma CallBound(call: Call, m: Memory, capacity: nat, id: nat, ch: Choice)
    requires CallBounded(call, capacity) && (capacity > 0 ==> m.inFlight <= capacity)
    ensures var (m', r) := Exec(m, CallOp(call, id), ch);
            && CallBounded(call.(pc := CallAfter(call, capacity, id, r)), capacity)
            && (capacity > 0 ==> m'.inFlight <= capacity)
  {
  }

  lemma StepBounded(s: State, e: Event, s': State)
    requires Bounded(s) && Step(s, e, s')
    ensures Bounded(s') && s'.cfg == s.cfg
  {
    match e
    case Submit(c, ch) =>
      assert CallBounded(s.calls[c], s.cfg.capacity);
      CallBound(s.calls[c], s.mem, s.cfg.capacity, |s.tasks|, ch);
    case Work(w, ch) => WorkNeverAdds(s.workers[w].pc, w, s.mem, ch);
    case _ =>
  }

  lemma WorkNeverAdds(pc: WorkerPc, w: nat, m: Memory, ch: Choice)
    ensures Exec(m, WorkerOp(w, pc), ch).0.inFlight == m.inFlight - Indicator(pc.ReleaseSlot?)
  {
  }

  /** With a nonzero capacity the in-flight count never exceeds it. */
  lemma {:induction false} NeverOverCapacity(r: seq<State>, es: seq<Event>, i: nat)
    requires Run(r, es) && Init(r[0]) && i < |r|
    ensures r[i].cfg == r[0].cfg && (r[0].cfg.capacity > 0 ==> r[i].mem.inFlight <= r[0].cfg.capacity)
    ensures Bounded(r[i])
  {
    if i > 0 {
      NeverOverCapacity(r, es, i - 1);
      assert StepAt(r, es, i - 1);
      StepBounded(r[i - 1], es[i - 1], r[i]);
    }
  }

  // ---------- A refusal is justified ----------

  /** A moment within call c's execution at which the scheduler was exactly full. */
  ghost predicate FullDuring(s: State, c: nat) {
    c < |s.calls| && !s.calls[c].pc.Returned? && s.mem.inFlight == s.cfg.capacity
  }

  predicate Refused(pc: CallPc) {
    pc == NoteFull || pc == Returned(QueueFull)
  }

  /** Whatever is not this call's own step leaves the call where it was. */
  lemma CallUntouched(s: State, e: Event, s': State, c: nat)
    requires Step(s, e, s') && c < |s'.calls| && !(e.Submit? && e.c == c)
    ensures c < |s.calls| ==> s'.calls[c] == s.calls[c]
    ensures c >= |s.calls| ==> s'.calls[c].pc == Start
  {
  }

  lemma BecomesRefused(s: State, c: nat, ch: Choice)
    requires Bounded(s) && Enabled(s, Submit(c, ch))
    requires Refused(Next(s, Submit(c, ch)).calls[c].pc) && !Refused(s.calls[c].pc)
    ensures FullDuring(s, c)
  {
    assert CallBounded(s.calls[c], s.cfg.capacity);
  }

  /** Every `QueueFull` saw, while the call was under way, a moment at which every slot was taken. */
  lemma {:induction false} RefusalSawFull(r: seq<State>, es: seq<Event>, j: nat, c: nat) returns (k: nat)
    requires Run(r, es) && Init(r[0]) && j < |r| && c < |r[j].calls| && Refused(r[j].calls[c].pc)
    ensures k < j && FullDuring(r[k], c)
  {
    assert j > 0;
    var i := j - 1;
    NeverOverCapacity(r, es, i);
    assert StepAt(r, es, i);
    if es[i].Submit? && es[i].c == c && !Refused(r[i].calls[c].pc) {
      BecomesRefused(r[i], c, es[i].ch);
      k := i;
    } else {
      if !(es[i].Submit? && es[i].c == c) { CallUntouched(r[i], es[i], r[j], c); }
      k := RefusalSawFull(r, es, i, c);
    }
  }

  // ---------- Exactly min(calls, capacity) ----------

  /** The event gives no slot back: it is neither a completion nor a rollback. */
  predicate KeepsSlots(s: State, e: Event) {
    && (e.Submit? && e.c < |s.calls| ==> !s.calls[e.c].pc.Release? && !s.calls[e.c].pc.FinalRelease?)
    && (e.Work? && e.w < |s.workers| ==> !s.workers[e.w].pc.ReleaseSlot?)
  }

  ghost predicate NothingGivenBack(r: seq<State>, es: seq<Event>)
    requires |r| == |es| + 1
  {
    forall i :: 0 <= i < |es| ==> KeepsSlots(r[i], es[i])
  }

  ghost predicate AllLive(s: State) {
    forall i :: 0 <= i < |s.tasks| ==> LivePhase(s.tasks[i].phase) == 1
  }

  lemma SlotsOnlyGrow(s: State, e: Event, s': State)
    requires InCustody(s) && Step(s, e, s') && KeepsSlots(s, e)
    ensures s'.mem.inFlight >= s.mem.inFlight
    ensures AllLive(s) ==> AllLive(s')
  {
    match e
    case Submit(c, ch) =>
      CallDelta(s.calls[c], s.mem, s.cfg.capacity, |s.tasks|, ch);
      SubmitEffect(s, c, ch);
      GrowsOnly(s.calls[c], s.mem, ch, |s.tasks|);
    case Work(w, ch) =>
      WorkNeverAdds(s.workers[w].pc, w, s.mem, ch);
      FollowEffect(s, w, ch);
      HandStep(s.workers[w], w, |s.workers|, s.mem, ch, QueuedIds(s.tasks));
      LiveStays(s.workers[w], w, |s.workers|, s.mem, ch, QueuedIds(s.tasks));
    case _ =>
  }

  lemma GrowsOnly(call: Call, m: Memory, ch: Choice, id: nat)
    requires !call.pc.Release? && !call.pc.FinalRelease?
    ensures Exec(m, CallOp(call, id), ch).0.inFlight >= m.inFlight
  {
  }

  lemma LiveStays(me: Worker, w: nat, n: nat, m: Memory, ch: Choice, queued: set<nat>)
    requires !me.pc.ReleaseSlot?
    ensures var r := Exec(m, WorkerOp(w, me.pc), ch).1;
            var hand, hand' := Hand(me.pc), Hand(WorkerAfter(me, w, n, r, queued).pc);
            && (hand.Some? && hand.value.1 != SlotFreed ==> hand'.Some? && hand'.value.1 != SlotFreed)
  {
  }

  lemma SlotsGrowNext(r: seq<State>, es: seq<Event>, i: nat)
    requires Run(r, es) && Init(r[0]) && i < |es| && KeepsSlots(r[i], es[i])
    ensures r[i].mem.inFlight <= r[i + 1].mem.inFlight
    ensures AllLive(r[i]) ==> AllLive(r[i + 1])
  {
    RunInvariant(r, es, i);
    assert StepAt(r, es, i);
    SlotsOnlyGrow(r[i], es[i], r[i + 1]);
  }

  lemma {:induction false} SlotsGrow(r: seq<State>, es: seq<Event>, i: nat, j: nat)
    requires Run(r, es) && Init(r[0]) && i <= j < |r| && NothingGivenBack(r, es)
    ensures r[i].mem.inFlight <= r[j].mem.inFlight
  {
    if i < j {
      SlotsGrow(r, es, i, j - 1);
      SlotsGrowNext(r, es, j - 1);
    }
  }

  lemma {:induction false} StaysLive(r: seq<State>, es: seq<Event>, j: nat)
    requires Run(r, es) && Init(r[0]) && j < |r| && NothingGivenBack(r, es)
    ensures AllLive(r[j])
  {
    if j > 0 {
      StaysLive(r, es, j - 1);
      SlotsGrowNext(r, es, j - 1);
    }
  }

  function WasAccepted(call: Call): int {
    Indicator(call.pc.Returned? && call.pc.outcome.Accepted?)
  }

  function AnyCall(call: Call): int { 1 }

  function Live(rec: Record): int { LivePhase(rec.phase) }

  function WasStopped(call: Call): int {
    Indicator(call.pc.Returned? && call.pc.outcome == Stopped)
  }

  function NotFull(call: Call): int {
    Indicator(call.pc.Returned? && call.pc.outcome != QueueFull)
  }

  ghost predicate AllReturned(s: State) {
    forall c :: 0 <= c < |s.calls| ==> s.calls[c].pc.Returned?
  }

  /**
   * If no slot is ever given back and every call has returned, then of the calls that no shutdown turned away exactly
   * as many were accepted as there is capacity for, whatever the interleaving.
   */
  lemma ExactAcceptance(r: seq<State>, es: seq<Event>)
    requires Run(r, es) && Init(r[0]) && NothingGivenBack(r, es) && r[0].cfg.capacity > 0 && AllReturned(r[|es|])
    ensures var s := r[|es|]; var n, cap := |s.calls| - Sum(s.calls, WasStopped), s.cfg.capacity;
            Sum(s.calls, WasAccepted) == if n <= cap then n else cap
  {
    var s := r[|es|];
    NeverOverCapacity(r, es, |es|);
    AcceptedHoldSlots(r, es);
    SumAdd(s.calls, WasAccepted, WasStopped, NotFull);
    SumLe(s.calls, NotFull, AnyCall);
    SumConstant(s.calls, AnyCall, 1);
    if c :| 0 <= c < |s.calls| && Refused(s.calls[c].pc) {
      var k := RefusalSawFull(r, es, |es|, c);
      NeverOverCapacity(r, es, k);
      SlotsGrow(r, es, k, |es|);
    } else {
      SumConstant(s.calls, NotFull, 1);
    }
  }

  /** With nothing given back and nobody mid-call, the slots in use are exactly the accepted calls. */
  lemma AcceptedHoldSlots(r: seq<State>, es: seq<Event>)
    requires Run(r, es) && Init(r[0]) && NothingGivenBack(r, es) && AllReturned(r[|es|])
    ensures r[|es|].mem.inFlight == Sum(r[|es|].calls, WasAccepted)
  {
    RunInvariant(r, es, |es|);
    StaysLive(r, es, |es|);
    var s := r[|es|];
    ReturnedSums(s.calls);
    LiveSums(s.tasks);
  }

  lemma ReturnedSums(calls: seq<Call>)
    requires forall c :: 0 <= c < |calls| ==> calls[c].pc.Returned?
    ensures Sum(calls, Reserved) == 0 && Sum(calls, Published) == Sum(calls, WasAccepted)
  {
    SumConstant(calls, Reserved, 0);
    SumLe(calls, Published, WasAccepted);
    SumLe(calls, WasAccepted, Published);
  }

  lemma LiveSums(tasks: seq<Record>)
    requires forall i :: 0 <= i < |tasks| ==> LivePhase(tasks[i].phase) == 1
    ensures Sum(tasks, Waiting) + Sum(tasks, Executing) == |tasks|
  {
    SumAdd(tasks, Waiting, Executing, Live);
    SumConstant(tasks, Live, 1);
  }
}
