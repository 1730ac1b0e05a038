/**
 * When a submission is accepted and when it is turned away: every answer is justified by what the call saw while it was
 * under way, and every call returns.
 */
module Admission {
  import opened Sums
  import opened Queues
  import opened Memory
  import opened Programs
  import opened Machine
  import opened Custody
  import opened Ledger
  import opened Draining
  import opened Waiting
  import opened Capacity

  predicate OwnCall(e: Event, c: nat) {
    e.Submit? && e.c == c
  }

  /** The last step of call c before state j, for a call that has taken one. */
  lemma {:induction false} LastOwn(r: seq<State>, es: seq<Event>, j: nat, c: nat) returns (k: nat)
    requires Run(r, es) && Init(r[0]) && j < |r| && c < |r[j].calls| && r[j].calls[c].pc != Start
    ensures k < j && OwnCall(es[k], c) && c < |r[k].calls| && c < |r[k + 1].calls| && r[k + 1].calls[c] == r[j].calls[c]
    ensures r[k].calls[c] == r[j].calls[c].(pc := r[k].calls[c].pc) && !r[k].calls[c].pc.Returned?
    ensures forall m :: k < m < j ==> !OwnCall(es[m], c)
  {
    assert j > 0;
    assert StepAt(r, es, j - 1);
    if OwnCall(es[j - 1], c) {
      k := j - 1;
    } else {
      CallUntouched(r[j - 1], es[j - 1], r[j], c);
      k := LastOwn(r, es, j - 1, c);
    }
  }

  // ---------- A refusal is justified ----------

  /** The scheduler is shutting down, or the call's own group is closed. */
  ghost predicate Hindered(s: State, c: nat) {
    && c < |s.calls|
    && (s.mem.shutdown || (s.calls[c].group.Some? && GroupAt(s.mem, s.calls[c].group.value).closed))
  }

  /** A moment within call c's execution at which it was hindered. */
  ghost predicate HinderedDuring(s: State, c: nat) {
    Hindered(s, c) && !s.calls[c].pc.Returned?
  }

  /** Has answered `Stopped`, or is undoing what it did before it does. */
  predicate TurnedAway(pc: CallPc) {
    pc.Release? || pc.GroupUndo? || pc.FinalRelease? || pc.FinalUndo? || pc == Returned(Stopped)
  }

  lemma BecomesTurnedAway(s: State, c: nat, ch: Choice)
    requires Enabled(s, Submit(c, ch))
    requires TurnedAway(Next(s, Submit(c, ch)).calls[c].pc) && !TurnedAway(s.calls[c].pc)
    ensures HinderedDuring(s, c)
  {
  }

  lemma HinderedForever(s: State, e: Event, s': State, c: nat)
    requires Step(s, e, s') && Hindered(s, c)
    ensures Hindered(s', c)
  {
    if !s.mem.shutdown {
      var g := s.calls[c].group.value;
      match e
      case Submit(d, ch) => StaysClosed(s.mem, CallOp(s.calls[d], |s.tasks|), ch, g);
      case Work(w, ch) => StaysClosed(s.mem, WorkerOp(w, s.workers[w].pc), ch, g);
      case _ =>
    }
  }

  /**
   * Every `Stopped` saw, while the call was under way, a moment at which the scheduler was shutting down or the call's
   * own group was closed; and that is still so when it has answered.
   */
  lemma {:induction false} StoppedSawStop(r: seq<State>, es: seq<Event>, j: nat, c: nat) returns (k: nat)
    requires Run(r, es) && Init(r[0]) && j < |r| && c < |r[j].calls| && TurnedAway(r[j].calls[c].pc)
    ensures k < j && HinderedDuring(r[k], c) && Hindered(r[j], c)
  {
    assert j > 0;
    var i := j - 1;
    assert StepAt(r, es, i);
    if OwnCall(es[i], c) && !TurnedAway(r[i].calls[c].pc) {
      BecomesTurnedAway(r[i], c, es[i].ch);
      k := i;
    } else {
      if !OwnCall(es[i], c) { CallUntouched(r[i], es[i], r[j], c); }
      k := StoppedSawStop(r, es, i, c);
    }
    HinderedForever(r[i], es[i], r[j], c);
  }

  /** A call that has returned was accepted if nothing ever hindered it and it never saw the scheduler full. */
  lemma UnhinderedIsAccepted(r: seq<State>, es: seq<Event>, j: nat, c: nat)
    requires Run(r, es) && Init(r[0]) && j < |r| && c < |r[j].calls| && r[j].calls[c].pc.Returned?
    requires forall k :: 0 <= k < j ==> !HinderedDuring(r[k], c) && (r[k].cfg.capacity > 0 ==> !FullDuring(r[k], c))
    ensures r[j].calls[c].pc.outcome.Accepted?
  {
    match r[j].calls[c].pc.outcome
    case Accepted(_) =>
    case Stopped =>
      var k := StoppedSawStop(r, es, j, c);
      assert false;
    case QueueFull =>
      NeverOverCapacity(r, es, j);
      assert CallBounded(r[j].calls[c], r[j].cfg.capacity);
      var k := RefusalSawFull(r, es, j, c);
      NeverOverCapacity(r, es, k);
      assert false;
  }

  ghost predicate AllOpen(m: Memory) {
    !m.shutdown && forall g :: 0 <= g < |m.groups| ==> !m.groups[g].closed
  }

  /** While the scheduler runs and no group is closed, no call is turned away. */
  lemma NobodyStopped(r: seq<State>, es: seq<Event>, j: nat)
    requires Run(r, es) && Init(r[0]) && j < |r| && AllOpen(r[j].mem)
    ensures Sum(r[j].calls, WasStopped) == 0
  {
    forall c | 0 <= c < |r[j].calls|
      ensures WasStopped(r[j].calls[c]) == 0
    {
      if TurnedAway(r[j].calls[c].pc) {
        var k := StoppedSawStop(r, es, j, c);
        assert false;
      }
    }
    SumConstant(r[j].calls, WasStopped, 0);
  }

  /**
   * If nothing is shut down or closed, no slot is ever given back and every call has returned, then exactly
   * min(calls, capacity) calls were accepted, whatever the interleaving.
   */
  lemma ExactAcceptanceOpen(r: seq<State>, es: seq<Event>)
    requires Run(r, es) && Init(r[0]) && NothingGivenBack(r, es) && r[0].cfg.capacity > 0 && AllReturned(r[|es|])
    requires AllOpen(r[|es|].mem)
    ensures var s := r[|es|];
            Sum(s.calls, WasAccepted) == if |s.calls| <= s.cfg.capacity then |s.calls| else s.cfg.capacity
  {
    NobodyStopped(r, es, |es|);
    ExactAcceptance(r, es);
  }

  // ---------- Turned away at the door ----------

  /** Steps of call c from state i to state j. */
  function CallSteps(es: seq<Event>, i: nat, j: nat, c: nat): nat
    requires i <= j <= |es|
  {
    if i == j then 0 else CallSteps(es, i, j - 1, c) + if OwnCall(es[j - 1], c) then 1 else 0
  }

  lemma {:induction false} AtTheDoor(r: seq<State>, es: seq<Event>, i: nat, j: nat, c: nat)
    requires Run(r, es) && i <= j < |r| && c < |r[i].calls| && r[i].calls[c].pc == Start && r[i].mem.shutdown
    ensures r[j].mem.shutdown && c < |r[j].calls|
    ensures r[j].calls[c] == r[i].calls[c].(pc := if CallSteps(es, i, j, c) == 0 then Start else Returned(Stopped))
    ensures j < |es| && OwnCall(es[j], c) ==> r[j + 1].mem == r[j].mem
  {
    if j < |es| { assert StepAt(r, es, j); }
    if i < j {
      AtTheDoor(r, es, i, j - 1, c);
      assert StepAt(r, es, j - 1);
      ShutdownForever(r[j - 1], es[j - 1], r[j]);
      if !OwnCall(es[j - 1], c) { CallUntouched(r[j - 1], es[j - 1], r[j], c); }
    }
  }

  /**
   * A call invoked after shutdown answers `Stopped` with its first step, whatever the capacity and the group: it never
   * holds a slot or a group entry, gives no other answer, and changes nothing in the shared memory.
   */
  lemma InvokedAfterShutdown(r: seq<State>, es: seq<Event>, i: nat, j: nat)
    requires Run(r, es) && i < j < |r| && es[i].Invoke? && r[i].mem.shutdown
    ensures var c := |r[i].calls|;
            && c < |r[j].calls| && !HasSlot(r[j].calls[c].pc) && !HasEntry(r[j].calls[c].pc)
            && r[j].calls[c].pc == (if CallSteps(es, i + 1, j, c) == 0 then Start else Returned(Stopped))
            && (j < |es| && OwnCall(es[j], c) ==> r[j + 1].mem == r[j].mem)
  {
    assert StepAt(r, es, i);
    AtTheDoor(r, es, i + 1, j, |r[i].calls|);
  }

  /** Not yet past the first look at its group, or turned away without ever being counted there. */
  predicate Outside(pc: CallPc) {
    || pc.Start? || pc.Reserve? || pc.LoadCount? || pc.Swap? || pc.NoteFull? || pc.Recheck? || pc.Release?
    || pc.GroupCheck? || (pc.Returned? && !pc.outcome.Accepted?)
  }

  lemma StaysOutside(s: State, c: nat, ch: Choice, g: nat)
    requires Enabled(s, Submit(c, ch)) && s.calls[c].group == Some(g) && Outside(s.calls[c].pc)
    requires GroupAt(s.mem, g).closed
    ensures var s' := Next(s, Submit(c, ch)); Outside(s'.calls[c].pc) && s'.mem.groups == s.mem.groups
  {
  }

  lemma {:induction false} KeptOutside(r: seq<State>, es: seq<Event>, i: nat, j: nat, c: nat, g: nat)
    requires Run(r, es) && i <= j < |r| && c < |r[i].calls| && r[i].calls[c].group == Some(g)
    requires Outside(r[i].calls[c].pc) && GroupAt(r[i].mem, g).closed
    ensures c < |r[j].calls| && r[j].calls[c].group == Some(g) && Outside(r[j].calls[c].pc)
    ensures GroupAt(r[j].mem, g).closed
    ensures j < |es| && OwnCall(es[j], c) ==> r[j + 1].mem.groups == r[j].mem.groups
  {
    if i < j {
      KeptOutside(r, es, i, j - 1, c, g);
      assert StepAt(r, es, j - 1);
      ClosedForever(r[j - 1], es[j - 1], r[j], g);
      if OwnCall(es[j - 1], c) { StaysOutside(r[j - 1], c, es[j - 1].ch, g); }
      else { CallUntouched(r[j - 1], es[j - 1], r[j], c); }
    }
    if j < |es| && OwnCall(es[j], c) {
      assert StepAt(r, es, j);
      StaysOutside(r[j], c, es[j].ch, g);
    }
  }

  lemma ClosedForever(s: State, e: Event, s': State, g: nat)
    requires Step(s, e, s') && GroupAt(s.mem, g).closed
    ensures GroupAt(s'.mem, g).closed
  {
    match e
    case Submit(d, ch) => StaysClosed(s.mem, CallOp(s.calls[d], |s.tasks|), ch, g);
    case Work(w, ch) => StaysClosed(s.mem, WorkerOp(w, s.workers[w].pc), ch, g);
    case _ =>
  }

  /** A call for a group that is closed already is never counted in it, never touches its count, and is not accepted. */
  lemma InvokedAfterClose(r: seq<State>, es: seq<Event>, i: nat, j: nat, g: nat)
    requires Run(r, es) && i < j < |r| && es[i].Invoke? && es[i].group == Some(g) && GroupAt(r[i].mem, g).closed
    ensures var c := |r[i].calls|;
            && c < |r[j].calls| && !HasEntry(r[j].calls[c].pc)
            && (r[j].calls[c].pc.Returned? ==> !r[j].calls[c].pc.outcome.Accepted?)
            && (j < |es| && OwnCall(es[j], c) ==> r[j + 1].mem.groups == r[j].mem.groups)
  {
    assert StepAt(r, es, i);
    KeptOutside(r, es, i + 1, j, |r[i].calls|, g);
  }

  // ---------- A publication is checked ----------

  /** Call c publishes a task at event j. */
  ghost predicate PublishesAt(r: seq<State>, es: seq<Event>, j: nat, c: nat) {
    j < |es| < |r| && OwnCall(es[j], c) && |r[j].tasks| < |r[j + 1].tasks|
  }

  lemma PublisherPc(s: State, c: nat, ch: Choice)
    requires Enabled(s, Submit(c, ch)) && |s.tasks| < |Next(s, Submit(c, ch)).tasks|
    ensures s.calls[c].pc == Publish
  {
  }

  /** Which step leads to the publication, and what it was answered. */
  lemma LeadsToPublish(call: Call, m: Memory, capacity: nat, id: nat, ch: Choice)
    requires CallAfter(call, capacity, id, Exec(m, CallOp(call, id), ch).1) == Publish && !call.pc.Returned?
    ensures call.pc == FinalCheck && !m.shutdown
  {
  }

  /** The load just before a publication at event j. */
  ghost predicate LastCheck(r: seq<State>, es: seq<Event>, k: nat, j: nat, c: nat) {
    && k < j < |es| < |r| && OwnCall(es[k], c) && c < |r[k].calls| && CallOp(r[k].calls[c], 0) == LoadShutdown
    && !r[k].mem.shutdown && (forall m :: k < m < j ==> !OwnCall(es[m], c))
    && HasSlot(r[k].calls[c].pc) && (r[k].calls[c].group.Some? ==> HasEntry(r[k].calls[c].pc))
  }

  /**
   * Just before it publishes, with no step of its own in between, a call reads the shutdown flag and it is clear; by
   * then the call has its slot and is counted in its group.
   */
  lemma PublicationIsChecked(r: seq<State>, es: seq<Event>, j: nat, c: nat) returns (k: nat)
    requires Run(r, es) && Init(r[0]) && PublishesAt(r, es, j, c)
    ensures LastCheck(r, es, k, j, c)
  {
    assert StepAt(r, es, j);
    PublisherPc(r[j], c, es[j].ch);
    k := LastOwn(r, es, j, c);
    assert StepAt(r, es, k);
    LeadsToPublish(r[k].calls[c], r[k].mem, r[k].cfg.capacity, |r[k].tasks|, es[k].ch);
  }

  lemma LeadsToFinalCheck(call: Call, m: Memory, capacity: nat, id: nat, ch: Choice, g: nat)
    requires CallAfter(call, capacity, id, Exec(m, CallOp(call, id), ch).1) == FinalCheck
    requires call.group == Some(g) && !call.pc.Returned?
    ensures call.pc == GroupRecheck && !GroupAt(m, g).closed
  {
  }

  lemma LeadsToRecheck(call: Call, m: Memory, capacity: nat, id: nat, ch: Choice, g: nat)
    requires CallAfter(call, capacity, id, Exec(m, CallOp(call, id), ch).1) == GroupRecheck
    requires CallOk(m, call) && call.group == Some(g)
    ensures GroupAt(Exec(m, CallOp(call, id), ch).0, g).count == GroupAt(m, g).count + 1
  {
  }

  /**
   * A call that publishes a task of a group has, in this order and with no step of its own in between, raised the
   * group's count (event a), found the group open (event b), and found the shutdown flag clear (event k).
   */
  lemma RegistrationIsChecked(r: seq<State>, es: seq<Event>, j: nat, c: nat, g: nat) returns (a: nat, b: nat, k: nat)
    requires Run(r, es) && Init(r[0]) && PublishesAt(r, es, j, c) && c < |r[j].calls| && r[j].calls[c].group == Some(g)
    ensures LastCheck(r, es, k, j, c) && a < b < k && OwnCall(es[a], c) && OwnCall(es[b], c)
    ensures forall m :: a < m < k && m != b ==> !OwnCall(es[m], c)
    ensures GroupAt(r[a + 1].mem, g).count == GroupAt(r[a].mem, g).count + 1 && !GroupAt(r[b].mem, g).closed
  {
    assert StepAt(r, es, j);
    PublisherPc(r[j], c, es[j].ch);
    k := LastOwn(r, es, j, c);
    assert StepAt(r, es, k);
    LeadsToPublish(r[k].calls[c], r[k].mem, r[k].cfg.capacity, |r[k].tasks|, es[k].ch);
    a, b := EntryIsChecked(r, es, k, c, g);
  }

  lemma EntryIsChecked(r: seq<State>, es: seq<Event>, k: nat, c: nat, g: nat) returns (a: nat, b: nat)
    requires Run(r, es) && Init(r[0]) && k < |r| && c < |r[k].calls| && r[k].calls[c].group == Some(g)
    requires r[k].calls[c].pc == FinalCheck
    ensures a < b < k && OwnCall(es[a], c) && OwnCall(es[b], c)
    ensures forall m :: a < m < k && m != b ==> !OwnCall(es[m], c)
    ensures GroupAt(r[a + 1].mem, g).count == GroupAt(r[a].mem, g).count + 1 && !GroupAt(r[b].mem, g).closed
  {
    b := LastOwn(r, es, k, c);
    assert StepAt(r, es, b);
    LeadsToFinalCheck(r[b].calls[c], r[b].mem, r[b].cfg.capacity, |r[b].tasks|, es[b].ch, g);
    a := LastOwn(r, es, b, c);
    assert StepAt(r, es, a);
    RunInvariant(r, es, a);
    assert CallOk(r[a].mem, r[a].calls[c]);
    LeadsToRecheck(r[a].calls[c], r[a].mem, r[a].cfg.capacity, |r[a].tasks|, es[a].ch, g);
  }

  lemma PublishStep(s: State, e: Event, s': State, id: nat)
    requires InCustody(s) && Step(s, e, s') && id < |s'.tasks|
    ensures id < |s.tasks| ==> s'.tasks[id].caller == s.tasks[id].caller
    ensures id >= |s.tasks| ==> id == |s.tasks| && OwnCall(e, s'.tasks[id].caller)
  {
    StepSettled(s, e, s');
    if e.Work? { FollowEffect(s, e.w, e.ch); }
  }

  /** Every published task was published at some event by the call on record. */
  lemma {:induction false} WasPublished(r: seq<State>, es: seq<Event>, j: nat, id: nat) returns (p: nat)
    requires Run(r, es) && Init(r[0]) && j < |r| && id < |r[j].tasks|
    ensures p < j && |r[p].tasks| == id && PublishesAt(r, es, p, r[j].tasks[id].caller)
  {
    assert j > 0;
    RunInvariant(r, es, j - 1);
    assert StepAt(r, es, j - 1);
    PublishStep(r[j - 1], es[j - 1], r[j], id);
    if id < |r[j - 1].tasks| { p := WasPublished(r, es, j - 1, id); } else { p := j - 1; }
  }

  /** So every published task had a moment with the flag clear, with only that load between it and its publication. */
  lemma PublishedWithFlagClear(r: seq<State>, es: seq<Event>, j: nat, id: nat) returns (k: nat, p: nat)
    requires Run(r, es) && Init(r[0]) && j < |r| && id < |r[j].tasks|
    ensures k < p < j && PublishesAt(r, es, p, r[j].tasks[id].caller) && |r[p].tasks| == id
    ensures LastCheck(r, es, k, p, r[j].tasks[id].caller)
  {
    p := WasPublished(r, es, j, id);
    k := PublicationIsChecked(r, es, p, r[j].tasks[id].caller);
  }

  // ---------- Every call returns ----------

  /** Steps left of a call whose swaps succeed. */
  function CallLeft(pc: CallPc): nat {
    match pc
    case Start => 12
    case LoadCount => 11
    case Reserve => 10
    case Swap(_) => 10
    case Recheck => 9
    case GroupCheck => 8
    case GroupAdd => 7
    case GroupRecheck => 6
    case FinalCheck => 5
    case Publish => 4
    case NoteSubmit(_) => 3
    case WakeCheck(_) => 2
    case Notify(_) => 1
    case FinalRelease => 2
    case FinalUndo => 1
    case GroupUndo => 2
    case Release => 1
    case NoteFull => 1
    case Returned(_) => 0
  }

  /** Call c tries a swap at this event and fails. */
  predicate SwapFails(s: State, e: Event, c: nat) {
    && OwnCall(e, c) && c < |s.calls| && s.calls[c].pc.Swap?
    && Exec(s.mem, CallOp(s.calls[c], |s.tasks|), e.ch).1 == Swapped(false, s.mem.inFlight)
  }

  function FailedSwaps(r: seq<State>, es: seq<Event>, i: nat, j: nat, c: nat): nat
    requires i <= j <= |es| < |r|
  {
    if i == j then 0 else FailedSwaps(r, es, i, j - 1, c) + if SwapFails(r[j - 1], es[j - 1], c) then 1 else 0
  }

  lemma CallDown(s: State, c: nat, ch: Choice)
    requires Enabled(s, Submit(c, ch))
    ensures var left, left' := CallLeft(s.calls[c].pc), CallLeft(Next(s, Submit(c, ch)).calls[c].pc);
            left' + 1 <= left + if SwapFails(s, Submit(c, ch), c) then 1 else 0
  {
  }

  lemma {:induction false} CallBudget(r: seq<State>, es: seq<Event>, i: nat, j: nat, c: nat)
    requires Run(r, es) && i <= j < |r| && c < |r[i].calls|
    ensures c < |r[j].calls|
    ensures CallSteps(es, i, j, c) + CallLeft(r[j].calls[c].pc)
            <= CallLeft(r[i].calls[c].pc) + FailedSwaps(r, es, i, j, c)
  {
    if i < j {
      CallBudget(r, es, i, j - 1, c);
      assert StepAt(r, es, j - 1);
      if OwnCall(es[j - 1], c) { CallDown(r[j - 1], c, es[j - 1].ch); }
      else { CallUntouched(r[j - 1], es[j - 1], r[j], c); }
    }
  }

  /** A call has returned after 12 steps of its own, not counting the swaps that failed. */
  lemma CallsReturn(r: seq<State>, es: seq<Event>, i: nat, j: nat, c: nat)
    requires Run(r, es) && i <= j < |r| && c < |r[i].calls|
    ensures c < |r[j].calls|
    ensures CallSteps(es, i, j, c) >= 12 + FailedSwaps(r, es, i, j, c) ==> r[j].calls[c].pc.Returned?
  {
    CallBudget(r, es, i, j, c);
  }

  lemma LeadsToSwap(call: Call, m: Memory, capacity: nat, id: nat, ch: Choice)
    requires CallAfter(call, capacity, id, Exec(m, CallOp(call, id), ch).1).Swap? && !call.pc.Returned?
    ensures CallAfter(call, capacity, id, Exec(m, CallOp(call, id), ch).1) == Swap(m.inFlight)
  {
  }

  /**
   * A swap expects what the call itself saw at its last step; so one that fails, unless spuriously, fails because
   * another thread has changed the count since.
   */
  lemma FailedSwapSawChange(r: seq<State>, es: seq<Event>, j: nat, c: nat) returns (k: nat)
    requires Run(r, es) && Init(r[0]) && j < |es| && OwnCall(es[j], c) && c < |r[j].calls| && r[j].calls[c].pc.Swap?
    ensures k < j && OwnCall(es[k], c) && (forall m :: k < m < j ==> !OwnCall(es[m], c))
    ensures r[j].calls[c].pc.current == r[k].mem.inFlight
    ensures SwapFails(r[j], es[j], c) && !es[j].ch.fail ==> r[j].mem.inFlight != r[k].mem.inFlight
  {
    k := LastOwn(r, es, j, c);
    assert StepAt(r, es, k);
    LeadsToSwap(r[k].calls[c], r[k].mem, r[k].cfg.capacity, |r[k].tasks|, es[k].ch);
  }
}
