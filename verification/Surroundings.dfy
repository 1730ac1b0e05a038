/** A worker's surroundings: what its own steps and those of other threads do to its deque and to the injectors. */
module Surroundings {
  import opened Sums
  import opened Queues
  import opened Memory
  import opened Programs
  import opened Machine
  import opened Custody
  import opened Ledger
  import opened Searching
  import opened Ordering
  import opened Fairness

  // ---------- What other threads can do to a worker's surroundings ----------

  predicate Suffix(xs: seq<Task>, ys: seq<Task>, n: nat) {
    n <= |xs| && ys == xs[n..]
  }

  predicate Gains(xs: seq<Task>, ys: seq<Task>, t: Task) {
    ys == xs + [t]
  }

  /** An injector gives up a prefix or gains a newly published task at its back. */
  ghost predicate Flows(xs: seq<Task>, ys: seq<Task>, newId: nat) {
    || (exists n: nat :: Suffix(xs, ys, n))
    || (exists t :: Gains(xs, ys, t) && t.id == newId)
  }

  /** A deque loses at most its front. */
  predicate Shrinks(d: seq<Task>, d': seq<Task>) {
    d' == d || (d != [] && d' == d[1..])
  }

  lemma ExecFlows(m: Memory, op: Op, ch: Choice, p: Priority, newId: nat)
    requires op.Push? ==> op.t.id == newId
    ensures Flows(Injector(m.q, p), Injector(Exec(m, op, ch).0.q, p), newId)
  {
    var xs, ys := Injector(m.q, p), Injector(Exec(m, op, ch).0.q, p);
    if ys == xs {
      assert Suffix(xs, ys, 0);
    } else if op.Push? {
      assert Gains(xs, ys, op.t);
    } else {
      assert Suffix(xs, ys, 1 + Extra(xs, ch.extra));
    }
  }

  lemma ExecShrinks(m: Memory, op: Op, ch: Choice, w: nat)
    requires w < |m.q.deques| && (op.Batch? ==> op.w != w)
    ensures var q' := Exec(m, op, ch).0.q; |q'.deques| == |m.q.deques| && Shrinks(m.q.deques[w], q'.deques[w])
  {
  }

  lemma SubmitFlows(s: State, c: nat, ch: Choice, p: Priority)
    requires Enabled(s, Submit(c, ch))
    ensures Flows(Injector(s.mem.q, p), Injector(Next(s, Submit(c, ch)).mem.q, p), |s.tasks|)
  {
    ExecFlows(s.mem, CallOp(s.calls[c], |s.tasks|), ch, p, |s.tasks|);
  }

  lemma WorkFlows(s: State, w: nat, ch: Choice, p: Priority)
    requires Enabled(s, Work(w, ch))
    ensures Flows(Injector(s.mem.q, p), Injector(Next(s, Work(w, ch)).mem.q, p), |s.tasks|)
  {
    OwnBatch(s.workers[w].pc, w);
    ExecFlows(s.mem, WorkerOp(w, s.workers[w].pc), ch, p, |s.tasks|);
  }

  lemma SameFlows(xs: seq<Task>, newId: nat)
    ensures Flows(xs, xs, newId)
  {
    assert Suffix(xs, xs, 0);
  }

  /** Under any step, every injector flows. */
  lemma StepFlows(s: State, e: Event, s': State, p: Priority)
    requires Step(s, e, s')
    ensures Flows(Injector(s.mem.q, p), Injector(s'.mem.q, p), |s.tasks|)
  {
    if e.Submit? {
      SubmitFlows(s, e.c, e.ch, p);
    } else if e.Work? {
      WorkFlows(s, e.w, e.ch, p);
    } else {
      assert s'.mem.q == s.mem.q;
      SameFlows(Injector(s.mem.q, p), |s.tasks|);
    }
  }

  /** Everything a step of another thread can change around worker w. */
  lemma OthersStep(s: State, e: Event, s': State, w: nat)
    requires WellFormed(s) && Step(s, e, s') && w < |s.workers| && !(e.Work? && e.w == w)
    ensures w < |s'.workers| == |s.workers| == |s'.mem.q.deques| && s'.workers[w] == s.workers[w] && s'.cfg == s.cfg
    ensures Shrinks(s.mem.q.deques[w], s'.mem.q.deques[w])
  {
    match e
    case Submit(c, ch) => ExecShrinks(s.mem, CallOp(s.calls[c], |s.tasks|), ch, w);
    case Work(v, ch) =>
      OwnBatch(s.workers[v].pc, v);
      ExecShrinks(s.mem, WorkerOp(v, s.workers[v].pc), ch, w);
    case _ =>
  }

  /** The task at index k is nowhere else. */
  predicate Unique(xs: seq<Task>, k: nat)
    requires k < |xs|
  {
    forall i :: 0 <= i < |xs| && xs[i] == xs[k] ==> i == k
  }

  /** An ordered injector holds a task at one index only. */
  lemma OneIndex(xs: seq<Task>, k: nat, p: Priority, published: nat)
    requires InjectorOk(xs, p, published) && k < |xs|
    ensures Unique(xs, k)
  {
    forall i | 0 <= i < |xs| && xs[i] == xs[k] ensures i == k {
      assert xs[i] in xs && xs[k] in xs;
    }
  }

  lemma SuffixIndex(xs: seq<Task>, ys: seq<Task>, n: nat, k: nat)
    requires Suffix(xs, ys, n) && k < |xs| && Unique(xs, k) && xs[k] in ys
    ensures n <= k && k - n < |ys| && ys[k - n] == xs[k]
  {
    var j :| 0 <= j < |ys| && ys[j] == xs[k];
    assert xs[n + j] == xs[k];
  }

  lemma GainIndex(xs: seq<Task>, ys: seq<Task>, t: Task, k: nat)
    requires Gains(xs, ys, t) && k < |xs|
    ensures |ys| == |xs| + 1 && ys[k] == xs[k]
  {
  }

  /** A task that stays in an ordered injector keeps everything behind it behind; its index never grows. */
  lemma FlowIndex(xs: seq<Task>, ys: seq<Task>, newId: nat, k: nat) returns (k': nat)
    requires Flows(xs, ys, newId) && k < |xs| && Unique(xs, k) && xs[k] in ys
    ensures k' <= k && k' < |ys| && ys[k'] == xs[k]
    ensures ys == xs[k - k'..] || (k' == k && |ys| == |xs| + 1)
  {
    if n: nat :| Suffix(xs, ys, n) {
      SuffixIndex(xs, ys, n, k);
      k' := k - n;
      assert k - k' == n;
    } else {
      var t :| Gains(xs, ys, t);
      GainIndex(xs, ys, t, k);
      k' := k;
    }
  }

  /** Once out of an injector, a task never comes back. */
  lemma FlowGone(xs: seq<Task>, ys: seq<Task>, newId: nat, t: Task)
    requires Flows(xs, ys, newId) && t.id != newId && t !in xs
    ensures t !in ys
  {
    if n: nat :| Suffix(xs, ys, n) {
      forall u | u in ys ensures u in xs {}
    }
  }

  // ---------- A task that stays in its injector ----------

  /** The injector gave up at most what was ahead of its task at index k, which is now at index k'. */
  predicate Stays(xs: seq<Task>, ys: seq<Task>, k: nat, k': nat) {
    k' <= k < |xs| && ys == xs[k - k'..]
  }

  lemma SamePlace(xs: seq<Task>, ys: seq<Task>, k: nat, k': nat)
    requires Stays(xs, ys, k, k') && |ys| == |xs|
    ensures k' == k
  {
    assert |xs[k - k'..]| == |xs|;
  }

  /** After a batch it has come forward by the head and by what the batch moved. */
  lemma BatchStays(q: Queues, p: Priority, w: nat, extra: nat, k: nat, k': nat)
    requires w < |q.deques| && Injector(q, p) != []
    requires Stays(Injector(q, p), Injector(TakeBatch(q, p, w, extra), p), k, k')
    ensures k - k' == 1 + Extra(Injector(q, p), extra)
  {
    var xs := Injector(q, p);
    assert |xs[k - k'..]| == |xs[1 + Extra(xs, extra)..]|;
  }

  lemma NeverLonger(m: Memory, op: Op, ch: Choice, p: Priority)
    requires !op.Push?
    ensures |Injector(Exec(m, op, ch).0.q, p)| <= |Injector(m.q, p)|
  {
  }

  lemma OthersKept(m: Memory, op: Op, ch: Choice, p: Priority)
    requires !op.Push? && !(op.Batch? && op.p == p)
    ensures Injector(Exec(m, op, ch).0.q, p) == Injector(m.q, p)
  {
  }

  /** Across a step of anybody; a worker's own step can only bring it forward. */
  lemma StepStays(s: State, e: Event, s': State, p: Priority, k: nat) returns (k': nat)
    requires Step(s, e, s') && OrderOk(s.mem.q, |s.tasks|)
    requires k < |Injector(s.mem.q, p)| && Injector(s.mem.q, p)[k] in Injector(s'.mem.q, p)
    ensures k' <= k && k' < |Injector(s'.mem.q, p)| && Injector(s'.mem.q, p)[k'] == Injector(s.mem.q, p)[k]
    ensures e.Work? ==> Stays(Injector(s.mem.q, p), Injector(s'.mem.q, p), k, k')
  {
    var xs, ys := Injector(s.mem.q, p), Injector(s'.mem.q, p);
    assert Unique(xs, k) by {
      assert InjectorOk(xs, p, |s.tasks|);
      OneIndex(xs, k, p, |s.tasks|);
    }
    StepFlows(s, e, s', p);
    k' := FlowIndex(xs, ys, |s.tasks|, k);
    if e.Work? {
      OwnBatch(s.workers[e.w].pc, e.w);
      NeverLonger(s.mem, WorkerOp(e.w, s.workers[e.w].pc), e.ch, p);
    }
  }

  /** A selection ends the search and moves the streak. */
  lemma Selection(me: Worker, w: nat, n: nat, r: Response, queued: set<nat>)
    requires r.Got? && Fits(WorkerOp(w, me.pc), r)
    ensures var me' := WorkerAfter(me, w, n, r, queued); !me'.pc.Pop? && me'.streak == Streak(me.streak, r.t)
  {
  }

  // ---------- HIGH tasks in a deque ----------

  function HighIn(d: seq<Task>): int {
    Sum(d, IsHigh)
  }

  function Each(t: Task): int { 1 }

  lemma HighInBounds(d: seq<Task>)
    ensures 0 <= HighIn(d) <= |d|
  {
    SumNonNegative(d, IsHigh);
    SumLe(d, IsHigh, Each);
    SumConstant(d, Each, 1);
  }

  // ---------- A worker in a reachable state ----------

  ghost predicate Placed(m: Memory, w: nat, me: Worker, published: nat) {
    && w < |m.q.deques| && SearchOk(m.q, w, me, published) && WorkerOk(me.pc) && StreakOk(me) && OrderOk(m.q, published)
  }

  /** The moved tasks of a batch. */
  lemma BatchMoves(q: Queues, p: Priority, w: nat, extra: nat, batch: nat, published: nat) returns (moved: seq<Task>)
    requires w < |q.deques| && Injector(q, p) != [] && extra <= batch && OrderOk(q, published)
    ensures TakeBatch(q, p, w, extra).deques[w] == q.deques[w] + moved
    ensures Only(moved, p) && |moved| <= batch && Injector(q, p)[0].priority == p
  {
    var xs := Injector(q, p);
    moved := xs[1..1 + Extra(xs, extra)];
    assert InjectorOk(xs, p, published);
    assert Injector(q, p)[0] in Injector(q, p);
    assert Only(moved, p) by { forall t | t in moved ensures t in xs {} }
  }

  /** Worker w's surroundings in a reachable state. */
  lemma PlacedAt(r: seq<State>, es: seq<Event>, i: nat, w: nat)
    requires Run(r, es) && Init(r[0]) && i < |r| && w < |r[i].workers|
    ensures Placed(r[i].mem, w, r[i].workers[w], |r[i].tasks|) && InCustody(r[i])
  {
    RunInvariant(r, es, i);
    RunSearches(r, es, i);
    OrderPreserved(r, es, i);
    RunFair(r, es, i);
    assert SearchOk(r[i].mem.q, w, r[i].workers[w], |r[i].tasks|) && WorkerOk(r[i].workers[w].pc);
    assert FairOk(r[i].workers[w]);
  }

  // ---------- Along a run ----------

  /** A published task that has left an injector is not there in any later state. */
  lemma {:induction false} NeverBack(r: seq<State>, es: seq<Event>, i: nat, j: nat, t: Task, p: Priority)
    requires Run(r, es) && Init(r[0]) && i <= j < |r| && t.id < |r[i].tasks| && t !in Injector(r[i].mem.q, p)
    ensures t.id < |r[j].tasks| && t !in Injector(r[j].mem.q, p)
  {
    if i < j {
      NeverBack(r, es, i, j - 1, t, p);
      assert StepAt(r, es, j - 1);
      RunInvariant(r, es, j - 1);
      StayAway(r[j - 1], es[j - 1], r[j], t, p);
    }
  }

  lemma StayAway(s: State, e: Event, s': State, t: Task, p: Priority)
    requires InCustody(s) && Step(s, e, s') && t.id < |s.tasks| && t !in Injector(s.mem.q, p)
    ensures t.id < |s'.tasks| && t !in Injector(s'.mem.q, p)
  {
    TasksGrow(s, e, s');
    StepFlows(s, e, s', p);
    FlowGone(Injector(s.mem.q, p), Injector(s'.mem.q, p), |s.tasks|, t);
  }

  /** A published task found in an injector has been there ever since it was seen there. */
  lemma StayedThere(r: seq<State>, es: seq<Event>, i: nat, j: nat, t: Task, p: Priority)
    requires Run(r, es) && Init(r[0]) && i < j < |r| && t.id < |r[i].tasks| && t in Injector(r[j].mem.q, p)
    ensures t in Injector(r[j - 1].mem.q, p)
  {
    if t !in Injector(r[j - 1].mem.q, p) {
      StillThere(r, es, i, j - 1, t.id);
      NeverBack(r, es, j - 1, j, t, p);
      assert false;
    }
  }

  /** Task ids stay published. */
  lemma {:induction false} StillThere(r: seq<State>, es: seq<Event>, i: nat, j: nat, id: nat)
    requires Run(r, es) && Init(r[0]) && i <= j < |r| && id < |r[i].tasks|
    ensures id < |r[j].tasks|
  {
    if i < j {
      StillThere(r, es, i, j - 1, id);
      GrowNext(r, es, j - 1);
    }
  }

  lemma GrowNext(r: seq<State>, es: seq<Event>, i: nat)
    requires Run(r, es) && Init(r[0]) && i < |es|
    ensures |r[i + 1].tasks| >= |r[i].tasks|
  {
    assert StepAt(r, es, i);
    RunInvariant(r, es, i);
    TasksGrow(r[i], es[i], r[i + 1]);
  }

  lemma TasksGrow(s: State, e: Event, s': State)
    requires InCustody(s) && Step(s, e, s')
    ensures |s'.tasks| >= |s.tasks|
  {
    match e
    case Submit(c, ch) => SubmitEffect(s, c, ch);
    case Work(w, ch) => FollowEffect(s, w, ch);
    case _ =>
  }
}
