/**
 * Going to sleep: a worker blocks only after it has looked once more since it announced its sleep, so that no task it
 * leaves behind goes without a notification.
 */
module Sleeping {
  import opened Sums
  import opened Queues
  import opened Memory
  import opened Programs
  import Victims
  import opened Machine
  import opened Custody
  import opened Ledger
  import opened Searching
  import opened Surroundings
  import opened Waiting
  import opened Capacity
  import opened Departure
  import opened Admission

  // ---------- The search a worker is in ----------

  /** Where the search was begun that a worker is in or has just finished without a task; `None` if it is in neither. */
  function SearchSite(pc: WorkerPc): Option<Site> {
    match pc
    case Pop(site, probe) => if probe.Enter? then None else Some(site)
    case LoadStop(site) => Some(site)
    case LoadDrained(site) => Some(site)
    case GoSleep => Some(Locked)
    case Blocked => Some(Asleep)
    case _ => None
  }

  /** That search has answered `Empty`. */
  predicate FoundNothing(pc: WorkerPc) {
    pc.LoadStop? || pc.LoadDrained? || pc.GoSleep? || pc.Blocked?
  }

  lemma SearchStep(me: Worker, w: nat, n: nat, r: Response, queued: set<nat>, site: Site)
    requires SearchSite(WorkerAfter(me, w, n, r, queued).pc) == Some(site)
    ensures me.pc == Pop(site, Enter) || SearchSite(me.pc) == Some(site)
    ensures FoundNothing(WorkerAfter(me, w, n, r, queued).pc) ==>
              FoundNothing(me.pc) || WorkerAfter(me, w, n, r, queued).pc == LoadStop(site)
  {
    if me.pc.Pop? { SearchProbe(me, w, n, r, queued, site); }
  }

  lemma SearchProbe(me: Worker, w: nat, n: nat, r: Response, queued: set<nat>, site: Site)
    requires me.pc.Pop? && SearchSite(WorkerAfter(me, w, n, r, queued).pc) == Some(site)
    ensures me.pc.site == site
    ensures FoundNothing(WorkerAfter(me, w, n, r, queued).pc) ==> WorkerAfter(me, w, n, r, queued).pc == LoadStop(site)
  {
    if AtPeers(me.pc) {
      match me.pc.probe
      case Steal(_) =>
      case _ =>
    }
  }

  /** From its start at event b up to state j, worker w is in the same search, begun at `site`. */
  ghost predicate SameSearch(r: seq<State>, es: seq<Event>, b: nat, j: nat, w: nat, site: Site) {
    && b < j < |r| && |r| == |es| + 1 && OwnStep(es[b], w)
    && w < |r[b].workers| && r[b].workers[w].pc == Pop(site, Enter)
    && forall m :: b < m <= j ==> w < |r[m].workers| && SearchSite(r[m].workers[w].pc) == Some(site)
  }

  lemma {:induction false} SearchBegan(r: seq<State>, es: seq<Event>, j: nat, w: nat) returns (b: nat)
    requires Run(r, es) && Init(r[0]) && j < |r| && w < |r[j].workers| && SearchSite(r[j].workers[w].pc).Some?
    ensures SameSearch(r, es, b, j, w, SearchSite(r[j].workers[w].pc).value)
  {
    assert j > 0;
    var i, site := j - 1, SearchSite(r[j].workers[w].pc).value;
    assert StepAt(r, es, i);
    Unmoved(r[i], es[i], r[j], w);
    if OwnStep(es[i], w) {
      SearchStep(r[i].workers[w], w, |r[i].workers|, WorkResponse(r[i], w, es[i].ch), QueuedIds(r[i].tasks), site);
    }
    if OwnStep(es[i], w) && r[i].workers[w].pc == Pop(site, Enter) { b := i; } else { b := SearchBegan(r, es, i, w); }
  }

  /** A search that has found nothing leaves nothing behind that was queued when it began. */
  lemma {:induction false} NothingLeft(r: seq<State>, es: seq<Event>, b: nat, j: nat, w: nat, site: Site, id: nat)
    requires Run(r, es) && Init(r[0]) && SameSearch(r, es, b, j, w, site) && FoundNothing(r[j].workers[w].pc)
    requires id < |r[b].tasks| && r[b].tasks[id].phase == Queued
    ensures id < |r[j].tasks| && r[j].tasks[id].phase != Queued
  {
    var i := j - 1;
    assert StepAt(r, es, i);
    Unmoved(r[i], es[i], r[j], w);
    if OwnStep(es[i], w) {
      SearchStep(r[i].workers[w], w, |r[i].workers|, WorkResponse(r[i], w, es[i].ch), QueuedIds(r[i].tasks), site);
    }
    if r[j].workers[w].pc == LoadStop(site) {
      EmptyIsSound(r, es, b, j, w, id);
    } else {
      NothingLeft(r, es, b, i, w, site, id);
      StaysTaken(r, es, i, j, id);
    }
  }

  /** What was queued in state i, before the search began, is gone too. */
  lemma NothingLeftFrom(r: seq<State>, es: seq<Event>, i: nat, b: nat, j: nat, w: nat, site: Site, id: nat)
    requires Run(r, es) && Init(r[0]) && SameSearch(r, es, b, j, w, site) && FoundNothing(r[j].workers[w].pc)
    requires i <= b && id < |r[i].tasks| && r[i].tasks[id].phase == Queued
    ensures id < |r[j].tasks| && r[j].tasks[id].phase != Queued
  {
    Remembered(r, es, i, b);
    if r[b].tasks[id].phase == Queued { NothingLeft(r, es, b, j, w, site, id); } else { StaysTaken(r, es, b, j, id); }
  }

  /** No task queued in state i is queued in state j. */
  ghost predicate AllTaken(r: seq<State>, i: nat, j: nat) {
    i < |r| && j < |r| &&
    forall id :: 0 <= id < |r[i].tasks| && r[i].tasks[id].phase == Queued ==>
      id < |r[j].tasks| && r[j].tasks[id].phase != Queued
  }

  // ---------- Announcing and retracting ----------

  /** At event i worker w adds itself to the sleeping workers. */
  ghost predicate Announces(r: seq<State>, es: seq<Event>, i: nat, w: nat) {
    i < |es| < |r| && OwnStep(es[i], w) && r[i + 1].mem.sleeping > r[i].mem.sleeping
  }

  /** At event i worker w takes itself off. */
  ghost predicate Retracts(r: seq<State>, es: seq<Event>, i: nat, w: nat) {
    i < |es| < |r| && OwnStep(es[i], w) && r[i + 1].mem.sleeping < r[i].mem.sleeping
  }

  lemma AnnouncerPc(s: State, w: nat, ch: Choice)
    requires Enabled(s, Work(w, ch))
    ensures Next(s, Work(w, ch)).mem.sleeping > s.mem.sleeping <==> s.workers[w].pc == GoSleep
  {
    SleepOp(s.mem, WorkerOp(w, s.workers[w].pc), ch);
  }

  /**
   * If worker w announces its sleep at event i and is blocked in a later state j, then no task that was queued anywhere
   * when it announced is still queued.
   */
  lemma SleepsOnNothing(r: seq<State>, es: seq<Event>, i: nat, j: nat, w: nat, id: nat)
    requires Run(r, es) && Init(r[0]) && Announces(r, es, i, w) && i < j < |r|
    requires w < |r[j].workers| && r[j].workers[w].pc == Blocked
    requires id < |r[i].tasks| && r[i].tasks[id].phase == Queued
    ensures id < |r[j].tasks| && r[j].tasks[id].phase != Queued
  {
    assert StepAt(r, es, i);
    AnnouncerPc(r[i], w, es[i].ch);
    BlocksOnNothing(r, es, i, j, w);
  }

  /** The same from the state in which it is about to announce. */
  lemma BlocksOnNothing(r: seq<State>, es: seq<Event>, i: nat, j: nat, w: nat)
    requires Run(r, es) && Init(r[0]) && i < j < |r| && w < |r[i].workers| && r[i].workers[w].pc == GoSleep
    requires w < |r[j].workers| && r[j].workers[w].pc == Blocked
    ensures AllTaken(r, i, j)
  {
    var b := SearchBegan(r, es, j, w);
    assert i < b;
    forall id | 0 <= id < |r[i].tasks| && r[i].tasks[id].phase == Queued
      ensures id < |r[j].tasks| && r[j].tasks[id].phase != Queued
    {
      NothingLeftFrom(r, es, i, b, j, w, Asleep, id);
    }
  }

  // ---------- A whole turn ----------

  lemma LeadsToAsleep(me: Worker, w: nat, n: nat, r: Response, queued: set<nat>)
    requires WorkerAfter(me, w, n, r, queued).pc == Pop(Asleep, Enter) && me.pc != Exited
    ensures me.pc == GoSleep
  {
  }

  lemma LeadsToLocked(me: Worker, w: nat, n: nat, r: Response, queued: set<nat>)
    requires WorkerAfter(me, w, n, r, queued).pc == Pop(Locked, Enter) && me.pc != Exited
    ensures me.pc == LoadStop(Fast) || me.pc == LoadDrained(Fast)
  {
  }

  /** The last step of worker w before state j, for a worker that has taken one. */
  lemma {:induction false} LastWork(r: seq<State>, es: seq<Event>, j: nat, w: nat) returns (k: nat)
    requires Run(r, es) && Init(r[0]) && j < |r| && w < |r[j].workers| && r[j].workers[w].pc != Pop(Fast, Enter)
    ensures k < j && OwnStep(es[k], w) && w < |r[k].workers| && r[k].workers[w].pc != Exited
    ensures w < |r[k + 1].workers| && r[k + 1].workers[w] == r[j].workers[w]
    ensures forall m :: k < m <= j ==> w < |r[m].workers| && r[m].workers[w] == r[j].workers[w]
    ensures forall m :: k < m < j ==> !OwnStep(es[m], w)
  {
    assert j > 0;
    assert StepAt(r, es, j - 1);
    Unmoved(r[j - 1], es[j - 1], r[j], w);
    if OwnStep(es[j - 1], w) { k := j - 1; } else { k := LastWork(r, es, j - 1, w); }
  }

  /** The search once counted as sleeping comes right after the announcement. */
  lemma BeforeAsleep(r: seq<State>, es: seq<Event>, b: nat, w: nat) returns (a: nat)
    requires Run(r, es) && Init(r[0]) && b < |r| && w < |r[b].workers| && r[b].workers[w].pc == Pop(Asleep, Enter)
    ensures a < b && w < |r[a].workers| && r[a].workers[w].pc == GoSleep && Announces(r, es, a, w)
    ensures forall m :: a < m <= b ==> w < |r[m].workers| && r[m].workers[w].pc == Pop(Asleep, Enter)
    ensures forall m :: a < m < b ==> !OwnStep(es[m], w)
  {
    a := LastWork(r, es, b, w);
    assert StepAt(r, es, a);
    LeadsToAsleep(r[a].workers[w], w, |r[a].workers|, WorkResponse(r[a], w, es[a].ch), QueuedIds(r[a].tasks));
    AnnouncerPc(r[a], w, es[a].ch);
  }

  /** The search under the lock comes right after a fast search that found nothing. */
  lemma BeforeLocked(r: seq<State>, es: seq<Event>, l: nat, w: nat) returns (e: nat)
    requires Run(r, es) && Init(r[0]) && l < |r| && w < |r[l].workers| && r[l].workers[w].pc == Pop(Locked, Enter)
    ensures e < l && w < |r[e].workers| && SearchSite(r[e].workers[w].pc) == Some(Fast)
    ensures FoundNothing(r[e].workers[w].pc)
    ensures forall m :: e < m < l ==> !OwnStep(es[m], w)
  {
    e := LastWork(r, es, l, w);
    assert StepAt(r, es, e);
    LeadsToLocked(r[e].workers[w], w, |r[e].workers|, WorkResponse(r[e], w, es[e].ch), QueuedIds(r[e].tasks));
  }

  /** Worker w begins a search at event m. */
  ghost predicate BeginsAt(r: seq<State>, es: seq<Event>, m: nat, w: nat) {
    m < |es| < |r| && OwnStep(es[m], w) && w < |r[m].workers| && Starts(r[m].workers[w].pc)
  }

  lemma AllTakenBy(r: seq<State>, es: seq<Event>, b: nat, e: nat, j: nat, w: nat, site: Site)
    requires Run(r, es) && Init(r[0]) && SameSearch(r, es, b, e, w, site) && FoundNothing(r[e].workers[w].pc)
    requires e <= j < |r|
    ensures AllTaken(r, b, j)
  {
    forall id | 0 <= id < |r[b].tasks| && r[b].tasks[id].phase == Queued
      ensures id < |r[j].tasks| && r[j].tasks[id].phase != Queued
    {
      NothingLeft(r, es, b, e, w, site, id);
      StaysTaken(r, es, e, j, id);
    }
  }

  /**
   * A blocked worker has come through a whole turn of its loop: it began a search at event f, one at event l, announced
   * its sleep at event a, and began a third search at event b; it began no other search since f; and each of the three
   * left nothing behind of what was queued when it began, before the next of these events.
   */
  lemma BlocksAfterThreeSearches(r: seq<State>, es: seq<Event>, j: nat, w: nat)
    returns (f: nat, l: nat, a: nat, b: nat)
    requires Run(r, es) && Init(r[0]) && j < |r| && w < |r[j].workers| && r[j].workers[w].pc == Blocked
    ensures f < l < a < b < j && BeginsAt(r, es, f, w) && BeginsAt(r, es, l, w) && BeginsAt(r, es, b, w)
    ensures Announces(r, es, a, w)
    ensures forall m :: f < m < j && m != l && m != b ==> !BeginsAt(r, es, m, w)
    ensures AllTaken(r, f, l) && AllTaken(r, l, a) && AllTaken(r, b, j)
  {
    b := SearchBegan(r, es, j, w);
    a := BeforeAsleep(r, es, b, w);
    l := SearchBegan(r, es, a, w);
    var e := BeforeLocked(r, es, l, w);
    f := SearchBegan(r, es, e, w);
    AllTakenBy(r, es, f, e, l, w, Fast);
    AllTakenBy(r, es, l, a, a, w, Locked);
    AllTakenBy(r, es, b, j, j, w, Asleep);
    forall m | f < m < j && m != l && m != b
      ensures !BeginsAt(r, es, m, w)
    {
      if m <= e { assert SearchSite(r[m].workers[w].pc) == Some(Fast); }
      else if l < m <= a { assert SearchSite(r[m].workers[w].pc) == Some(Locked); }
      else if b < m { assert SearchSite(r[m].workers[w].pc) == Some(Asleep); }
    }
  }

  // ---------- Being seen ----------

  lemma CountedSleeper(s: State, w: nat)
    requires InBalance(s) && w < |s.workers| && IsAsleep(s.workers[w].pc)
    ensures s.mem.sleeping >= 1
  {
    SumNonNegative(s.workers, Sleeper);
    assert Sleeper(s.workers[w]) == 1;
  }

  lemma AsleepStep(s: State, w: nat, ch: Choice)
    requires Enabled(s, Work(w, ch)) && IsAsleep(s.workers[w].pc)
    ensures var s' := Next(s, Work(w, ch)); s'.mem.sleeping < s.mem.sleeping || IsAsleep(s'.workers[w].pc)
  {
    SleepOp(s.mem, WorkerOp(w, s.workers[w].pc), ch);
    SleepProgram(s.workers[w], w, |s.workers|, WorkResponse(s, w, ch), QueuedIds(s.tasks));
  }

  /** A worker that has announced its sleep and not retracted is in its sleeping section. */
  lemma {:induction false} StaysAsleep(r: seq<State>, es: seq<Event>, i: nat, k: nat, w: nat)
    requires Run(r, es) && Announces(r, es, i, w) && i < k < |r|
    requires forall m :: i < m < k ==> !Retracts(r, es, m, w)
    ensures w < |r[k].workers| && IsAsleep(r[k].workers[w].pc)
  {
    if k == i + 1 {
      assert StepAt(r, es, i);
      AnnouncerPc(r[i], w, es[i].ch);
    } else {
      StaysAsleep(r, es, i, k - 1, w);
      assert StepAt(r, es, k - 1);
      Unmoved(r[k - 1], es[k - 1], r[k], w);
      assert !Retracts(r, es, k - 1, w);
      if OwnStep(es[k - 1], w) { AsleepStep(r[k - 1], w, es[k - 1].ch); }
    }
  }

  /**
   * A submission that looks at the sleeping workers while worker w has announced its sleep and not retracted reads at
   * least one, and goes on to notify.
   */
  lemma LookSeesSleeper(r: seq<State>, es: seq<Event>, i: nat, k: nat, w: nat, c: nat)
    requires Run(r, es) && Init(r[0]) && Announces(r, es, i, w) && i < k < |es|
    requires forall m :: i < m < k ==> !Retracts(r, es, m, w)
    requires OwnCall(es[k], c) && c < |r[k].calls| && r[k].calls[c].pc.WakeCheck?
    ensures r[k].mem.sleeping >= 1 && c < |r[k + 1].calls| && r[k + 1].calls[c].pc == Notify(r[k].calls[c].pc.id)
  {
    RunInvariant(r, es, k);
    StaysAsleep(r, es, i, k, w);
    CountedSleeper(r[k], w);
    assert StepAt(r, es, k);
  }

  /** A submission notifies if and only if the count it looks at is not zero at that moment. */
  lemma LookDecides(r: seq<State>, es: seq<Event>, k: nat, c: nat)
    requires Run(r, es) && k < |es| && OwnCall(es[k], c) && c < |r[k].calls| && r[k].calls[c].pc.WakeCheck?
    ensures c < |r[k + 1].calls|
    ensures r[k + 1].calls[c].pc.Notify? <==> r[k].mem.sleeping != 0
    ensures !r[k + 1].calls[c].pc.Notify? ==> r[k + 1].calls[c].pc.Returned?
  {
    assert StepAt(r, es, k);
  }

  // ---------- No task is left behind without a notification ----------

  /** Worker w stays in one sleeping section from state k to state j. */
  ghost predicate SleepsThrough(r: seq<State>, k: nat, j: nat, w: nat) {
    k <= j < |r| && forall m :: k <= m <= j ==> w < |r[m].workers| && IsAsleep(r[m].workers[w].pc)
  }

  /** A task that is queued while worker w is blocked was published after the last search of w began. */
  lemma PublishedSince(r: seq<State>, es: seq<Event>, j: nat, w: nat, id: nat) returns (b: nat, p: nat)
    requires Run(r, es) && Init(r[0]) && j < |r| && w < |r[j].workers| && r[j].workers[w].pc == Blocked
    requires id < |r[j].tasks| && r[j].tasks[id].phase == Queued
    ensures b <= p < j && |r[p].tasks| == id && SleepsThrough(r, b, j, w)
  {
    b := SearchBegan(r, es, j, w);
    p := WasPublished(r, es, j, id);
    if p < b {
      Remembered(r, es, p + 1, b);
      if r[b].tasks[id].phase == Queued { NothingLeft(r, es, b, j, w, Asleep, id); }
      else { StaysTaken(r, es, b, j, id); }
      assert false;
    }
    forall m | b <= m <= j ensures w < |r[m].workers| && IsAsleep(r[m].workers[w].pc) {
      if m > b { assert SearchSite(r[m].workers[w].pc) == Some(Asleep); }
    }
  }

  /** At event k call c, which published task `id`, looks at the sleepers, and at event q it notifies one. */
  ghost predicate Notified(r: seq<State>, es: seq<Event>, k: nat, q: nat, c: nat, id: nat) {
    && k < q < |es| < |r| && OwnCall(es[k], c) && OwnCall(es[q], c) && c < |r[k].calls| && c < |r[q].calls|
    && r[k].calls[c].pc == WakeCheck(id) && r[k].mem.sleeping >= 1 && r[q].calls[c].pc == Notify(id)
  }

  lemma LeadsToAccepted(call: Call, m: Memory, capacity: nat, id: nat, ch: Choice)
    requires CallAfter(call, capacity, id, Exec(m, CallOp(call, id), ch).1).Returned? && !call.pc.Returned?
    requires CallAfter(call, capacity, id, Exec(m, CallOp(call, id), ch).1).outcome.Accepted?
    ensures var task := CallAfter(call, capacity, id, Exec(m, CallOp(call, id), ch).1).outcome.id;
            call.pc == Notify(task) || (call.pc == WakeCheck(task) && m.sleeping == 0)
  {
  }

  lemma LeadsToNotify(call: Call, m: Memory, capacity: nat, id: nat, ch: Choice)
    requires CallAfter(call, capacity, id, Exec(m, CallOp(call, id), ch).1).Notify?
    requires !call.pc.Returned?
    ensures call.pc == WakeCheck(CallAfter(call, capacity, id, Exec(m, CallOp(call, id), ch).1).id)
  {
  }

  /** A call past its publication looks at the sleepers after it. */
  lemma AfterPublication(r: seq<State>, es: seq<Event>, p: nat, k: nat, c: nat, id: nat)
    requires Run(r, es) && Init(r[0]) && p < |r| && k < |r| && |r[p].tasks| == id
    requires c < |r[k].calls| && PublishedId(r[k].calls[c].pc) == Some(id)
    ensures p < k
  {
    RunInvariant(r, es, k);
    assert CallPublished(r[k], c);
    if k <= p { Remembered(r, es, k, p); }
  }

  /**
   * No task is left behind without a notification. If worker w is blocked while a task is queued, then the call that
   * published the task has not looked at the sleepers yet, or has and is about to notify, or it has done both while w
   * was in this same sleeping section: it looked at event k and notified at event q.
   */
  lemma NoTaskUnannounced(r: seq<State>, es: seq<Event>, j: nat, w: nat, id: nat) returns (k: nat, q: nat)
    requires Run(r, es) && Init(r[0]) && j < |r| && w < |r[j].workers| && r[j].workers[w].pc == Blocked
    requires id < |r[j].tasks| && r[j].tasks[id].phase == Queued
    ensures var c := r[j].tasks[id].caller;
            && c < |r[j].calls|
            && (|| r[j].calls[c].pc in {NoteSubmit(id), WakeCheck(id), Notify(id)}
                || (&& r[j].calls[c].pc == Returned(Accepted(id))
                    && Notified(r, es, k, q, c, id) && q < j && SleepsThrough(r, k, j, w)))
  {
    k, q := 0, 0;
    RunInvariant(r, es, j);
    var c := r[j].tasks[id].caller;
    assert PublishedId(r[j].calls[c].pc) == Some(id);
    if r[j].calls[c].pc.Returned? {
      var b, p := PublishedSince(r, es, j, w, id);
      q := LastOwn(r, es, j, c);
      assert StepAt(r, es, q);
      LeadsToAccepted(r[q].calls[c], r[q].mem, r[q].cfg.capacity, |r[q].tasks|, es[q].ch);
      SeenWhileAsleep(r, es, b, p, q, j, w, c, id);
      k := LastOwn(r, es, q, c);
      assert StepAt(r, es, k);
      LeadsToNotify(r[k].calls[c], r[k].mem, r[k].cfg.capacity, |r[k].tasks|, es[k].ch);
      SeenWhileAsleep(r, es, b, p, k, j, w, c, id);
    }
  }

  /** Between publication and state j the sleeping count covers worker w. */
  lemma SeenWhileAsleep(r: seq<State>, es: seq<Event>, b: nat, p: nat, k: nat, j: nat, w: nat, c: nat, id: nat)
    requires Run(r, es) && Init(r[0]) && b <= p < |r| && k < j < |r| && |r[p].tasks| == id
    requires SleepsThrough(r, b, j, w) && c < |r[k].calls| && PublishedId(r[k].calls[c].pc) == Some(id)
    ensures r[k].mem.sleeping >= 1 && SleepsThrough(r, k, j, w)
  {
    AfterPublication(r, es, p, k, c, id);
    RunInvariant(r, es, k);
    CountedSleeper(r[k], w);
  }

  // ---------- Before or after it blocked ----------

  lemma {:induction false} StaysReturned(r: seq<State>, es: seq<Event>, i: nat, j: nat, c: nat)
    requires Run(r, es) && i <= j < |r| && c < |r[i].calls| && r[i].calls[c].pc.Returned?
    ensures c < |r[j].calls| && r[j].calls[c] == r[i].calls[c]
  {
    if i < j {
      StaysReturned(r, es, i, j - 1, c);
      assert StepAt(r, es, j - 1);
      CallUntouched(r[j - 1], es[j - 1], r[j], c);
    }
  }

  /** From its step at event x up to state j worker w is blocked. */
  ghost predicate BlockedSince(r: seq<State>, es: seq<Event>, x: nat, j: nat, w: nat) {
    && x < j < |r| && |r| == |es| + 1 && OwnStep(es[x], w)
    && forall m :: x < m <= j ==> w < |r[m].workers| && r[m].workers[w].pc == Blocked
  }

  /**
   * The notification need not come after the worker has blocked: it does if and only if the call had not returned yet
   * when the worker blocked.
   */
  lemma NotifiedWhileBlocked(r: seq<State>, es: seq<Event>, x: nat, j: nat, w: nat, id: nat) returns (k: nat, q: nat)
    requires Run(r, es) && Init(r[0]) && BlockedSince(r, es, x, j, w)
    requires id < |r[j].tasks| && r[j].tasks[id].phase == Queued
    requires r[j].tasks[id].caller < |r[j].calls| && r[j].calls[r[j].tasks[id].caller].pc.Returned?
    ensures var c := r[j].tasks[id].caller;
            && Notified(r, es, k, q, c, id) && q < j && SleepsThrough(r, k, j, w)
            && (x < q <==> !(c < |r[x].calls| && r[x].calls[c].pc.Returned?))
  {
    k, q := NoTaskUnannounced(r, es, j, w, id);
    var c := r[j].tasks[id].caller;
    assert StepAt(r, es, q);
    if x < q {
      if c < |r[x].calls| && r[x].calls[c].pc.Returned? { StaysReturned(r, es, x, q, c); }
    } else {
      StaysReturned(r, es, q + 1, x, c);
    }
  }

  // ---------- A worker that finds nothing does go to sleep ----------

  /** Steps left, after a search at this site and the decision not to stop, until the worker blocks. */
  function RestLeft(site: Site, n: nat): int {
    match site
    case Fast => 6 * n + 18
    case Locked => 3 * n + 10
    case Asleep => 1
  }

  /** Steps left until a worker that finds nothing blocks or leaves. */
  function SleepLeft(pc: WorkerPc, n: nat): int {
    match pc
    case Pop(site, probe) => ProbesLeft(probe, n) + 2 + RestLeft(site, n)
    case LoadStop(site) => 2 + RestLeft(site, n)
    case LoadDrained(site) => 1 + RestLeft(site, n)
    case GoSleep => RestLeft(Locked, n)
    case Blocked => 0
    case Exited => 0
    case Retract(next) => (match next case Leave => 1 case Loop => 9 * n + 27 case RunIt(_) => 9 * n + 31)
    case ReleaseGroup(_) => 9 * n + 27
    case ReleaseSlot(_) => 9 * n + 28
    case NoteDone(_) => 9 * n + 29
    case Running(_) => 9 * n + 30
    case Stolen(_, _) => 9 * n + 32
  }

  lemma ProbeTowardsSleep(me: Worker, w: nat, n: nat, r: Response, queued: set<nat>)
    requires me.pc.Pop? && !AtPeers(me.pc) && !r.Got? && !r.Retry?
    ensures SleepLeft(WorkerAfter(me, w, n, r, queued).pc, n) < SleepLeft(me.pc, n)
  {
  }

  lemma PeersTowardsSleep(me: Worker, w: nat, n: nat, r: Response, queued: set<nat>)
    requires w < n && AtPeers(me.pc) && WorkerOk(me.pc) && !r.Got? && !r.Retry?
    ensures SleepLeft(WorkerAfter(me, w, n, r, queued).pc, n) < SleepLeft(me.pc, n)
  {
    if me.pc.probe.Choose? { Victims.VictimListIsPermutation(n, w, me.cursor); }
  }

  lemma TowardsSleep(me: Worker, w: nat, n: nat, r: Response, queued: set<nat>)
    requires w < n && WorkerOk(me.pc) && !r.Got? && !r.Retry? && me.pc != Exited && me.pc != Blocked
    ensures SleepLeft(WorkerAfter(me, w, n, r, queued).pc, n) < SleepLeft(me.pc, n)
  {
    if AtPeers(me.pc) { PeersTowardsSleep(me, w, n, r, queued); }
    else if me.pc.Pop? { ProbeTowardsSleep(me, w, n, r, queued); }
  }

  lemma SleepBounds(pc: WorkerPc, w: nat, n: nat)
    requires w < n && WorkerOk(pc) && VictimsOk(pc, w, n)
    ensures 0 <= SleepLeft(pc, n) <= 9 * n + 32
    ensures SleepLeft(pc, n) == 0 <==> pc == Blocked || pc == Exited
  {
  }

  /** A queue gives worker w a task or asks it to try again. */
  predicate Disturbed(s: State, e: Event, w: nat) {
    OwnStep(e, w) && w < |s.workers| && (WorkResponse(s, w, e.ch).Got? || WorkResponse(s, w, e.ch).Retry?)
  }

  ghost predicate BlockedAt(r: seq<State>, k: nat, w: nat) {
    k < |r| && w < |r[k].workers| && r[k].workers[w].pc == Blocked
  }

  lemma {:induction false} SleepBudget(r: seq<State>, es: seq<Event>, i: nat, j: nat, w: nat)
    requires Run(r, es) && Init(r[0]) && i <= j < |r| && w < |r[i].workers|
    requires forall k :: i <= k < j ==> !Disturbed(r[k], es[k], w) && !BlockedAt(r, k, w)
    ensures |r[j].workers| == |r[i].workers|
    ensures var n := |r[i].workers|;
            OwnSteps(es, i, j, w) + SleepLeft(r[j].workers[w].pc, n) <= SleepLeft(r[i].workers[w].pc, n)
  {
    if i < j {
      SleepBudget(r, es, i, j - 1, w);
      var s, e := r[j - 1], es[j - 1];
      assert !Disturbed(s, e, w) && !BlockedAt(r, j - 1, w);
      RunInvariant(r, es, j - 1);
      assert StepAt(r, es, j - 1);
      Unmoved(s, e, r[j], w);
      if OwnStep(e, w) {
        assert WorkerOk(s.workers[w].pc);
        TowardsSleep(s.workers[w], w, |s.workers|, WorkResponse(s, w, e.ch), QueuedIds(s.tasks));
      }
    }
  }

  /**
   * A worker that no queue gives a task or asks to try again has blocked, or has left, within 9n + 32 steps of its own,
   * whether the scheduler is shutting down or not.
   */
  lemma FallsAsleep(r: seq<State>, es: seq<Event>, i: nat, j: nat, w: nat)
    requires Run(r, es) && Init(r[0]) && i <= j < |r| && w < |r[i].workers|
    requires forall k :: i <= k < j ==> !Disturbed(r[k], es[k], w)
    requires OwnSteps(es, i, j, w) >= 9 * |r[i].workers| + 32
    ensures w < |r[j].workers|
    ensures r[j].workers[w].pc == Exited || exists k :: i <= k <= j && BlockedAt(r, k, w)
  {
    SameWorkers(r, es, i, j);
    if forall k :: i <= k < j ==> !BlockedAt(r, k, w) {
      SleepBudget(r, es, i, j, w);
      PcInBounds(r, es, i, w);
      PcInBounds(r, es, j, w);
      assert r[j].workers[w].pc == Blocked ==> BlockedAt(r, j, w);
    }
  }

  lemma PcInBounds(r: seq<State>, es: seq<Event>, i: nat, w: nat)
    requires Run(r, es) && Init(r[0]) && i < |r| && w < |r[i].workers|
    ensures var pc, n := r[i].workers[w].pc, |r[i].workers|;
            0 <= SleepLeft(pc, n) <= 9 * n + 32 && (SleepLeft(pc, n) == 0 <==> pc == Blocked || pc == Exited)
  {
    RunInvariant(r, es, i);
    RunSearches(r, es, i);
    assert SearchOk(r[i].mem.q, w, r[i].workers[w], |r[i].tasks|) && WorkerOk(r[i].workers[w].pc);
    SleepBounds(r[i].workers[w].pc, w, |r[i].workers|);
  }
}
