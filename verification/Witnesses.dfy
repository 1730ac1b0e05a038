/**
 * Concrete runs. They show that the transition system does execute tasks, and that the bounds fail when stated without
 * their corrections: the detour account inside the fairness path, the burst limit when the lower injectors take turns
 * in being empty, the inversion bound for a worker whose search has already passed the HIGH injector, and the bounds on
 * NORMAL and LOW progress for a worker that has peers still to try. For the inversion bound they show, for every batch
 * size, that each of the three surcharges is the least possible.
 */
module Witnesses {
  import opened Sums
  import opened Queues
  import opened Memory
  import opened Programs
  import opened Victims
  import opened Machine
  import opened Searching
  import opened Fairness
  import opened Surroundings
  import opened Inversion
  import opened LowerProgress

  // ---------- Runs under construction ----------

  /** What is to hold of the queues in every state from some point on. */
  datatype Watch = Anything | LowerThere | NormalEmpty

  predicate OnWatch(watch: Watch, q: Queues) {
    match watch
    case Anything => true
    case LowerThere => q.normal != [] || q.low != []
    case NormalEmpty => q.normal == []
  }

  /** A run so far, with its batch size and a watch kept from state `from` on. */
  datatype Trace = Trace(states: seq<State>, events: seq<Event>, batch: nat, from: nat, watch: Watch)

  ghost predicate Reaches(x: Trace, s: State) {
    && Run(x.states, x.events) && Init(x.states[0]) && x.states[|x.events|] == s && s.cfg == Config(0, x.batch)
    && x.from < |x.states| && (forall k :: x.from <= k < |x.states| ==> OnWatch(x.watch, x.states[k].mem.q))
  }

  predicate Extends(x: Trace, y: Trace) {
    x.states <= y.states && y.batch == x.batch && y.from == x.from && y.watch == x.watch
  }

  /** Three workers, unlimited capacity, no shutdown. */
  ghost predicate Simple(s: State) {
    s.cfg.capacity == 0 && !s.mem.shutdown && |s.workers| == 3 && |s.mem.q.deques| == 3
  }

  /** Nothing but these tasks queued, the last ones in the deque of worker 2. */
  function Only2(high: seq<Task>, normal: seq<Task>, low: seq<Task>, d: seq<Task>): Queues {
    Queues(high, normal, low, [[], [], d])
  }

  lemma Beginning(batch: nat) returns (x: Trace, s: State)
    ensures Reaches(x, s) && Simple(s) && x.batch == batch && x.watch == Anything && s.mem.q == Only2([], [], [], [])
    ensures s.workers == [NEW_WORKER, NEW_WORKER, NEW_WORKER]
  {
    s := State(Config(0, batch), Memory(false, 0, 0, [], Stats(0, 0, 0, 0, 0, 0, 0), Only2([], [], [], [])), [], [],
               [NEW_WORKER, NEW_WORKER, NEW_WORKER], []);
    x := Trace([s], [], batch, 0, Anything);
  }

  /** Keep watch from here on. */
  lemma KeepWatch(x: Trace, s: State, watch: Watch) returns (y: Trace)
    requires Reaches(x, s) && OnWatch(watch, s.mem.q)
    ensures Reaches(y, s) && y == x.(from := |x.events|, watch := watch)
  {
    y := x.(from := |x.events|, watch := watch);
  }

  lemma Go(x: Trace, s: State, e: Event) returns (y: Trace)
    requires Reaches(x, s) && Enabled(s, e) && OnWatch(x.watch, Next(s, e).mem.q) && Next(s, e).cfg == s.cfg
    ensures Reaches(y, Next(s, e)) && Extends(x, y) && |y.states| == |x.states| + 1
  {
    y := x.(states := x.states + [Next(s, e)], events := x.events + [e]);
    forall i | 0 <= i < |y.events|
      ensures StepAt(y.states, y.events, i)
    {
      if i < |x.events| { assert StepAt(x.states, x.events, i); }
    }
  }

  // ---------- Submissions and workers without interruption ----------

  /** One step of a submission without a group before it publishes, with what it leaves alone. */
  lemma SubmitOne(x: Trace, s: State, c: nat) returns (y: Trace, s': State)
    requires Reaches(x, s) && Simple(s) && c < |s.calls| && s.calls[c].group == None && OnWatch(x.watch, s.mem.q)
    requires s.calls[c].pc in {Start, Reserve, Recheck, FinalCheck}
    ensures Reaches(y, s') && Simple(s') && Extends(x, y) && c < |s'.calls|
    ensures s'.workers == s.workers && s'.tasks == s.tasks && s'.mem.q == s.mem.q
    ensures s'.calls[c] == s.calls[c].(pc := match s.calls[c].pc
                                             case Start => Reserve case Reserve => Recheck case Recheck => FinalCheck
                                             case _ => Publish)
  {
    s' := Next(s, Submit(c, NO_CHOICE));
    y := Go(x, s, Submit(c, NO_CHOICE));
  }

  lemma PublishOne(x: Trace, s: State, c: nat) returns (y: Trace, s': State)
    requires Reaches(x, s) && Simple(s) && c < |s.calls| && s.calls[c].group == None && s.calls[c].pc == Publish
    requires OnWatch(x.watch, PushTask(s.mem.q, Task(|s.tasks|, s.calls[c].priority, None)))
    ensures Reaches(y, s') && Simple(s') && Extends(x, y) && s'.workers == s.workers
    ensures s'.mem.q == PushTask(s.mem.q, Task(|s.tasks|, s.calls[c].priority, None))
  {
    s' := Next(s, Submit(c, NO_CHOICE));
    y := Go(x, s, Submit(c, NO_CHOICE));
  }

  /** A submission that runs without interruption publishes its task. */
  lemma PushOne(x: Trace, s: State, p: Priority) returns (y: Trace, s': State, t: Task)
    requires Reaches(x, s) && Simple(s) && OnWatch(x.watch, s.mem.q) && (x.watch == NormalEmpty ==> p != Normal)
    ensures Reaches(y, s') && Simple(s') && Extends(x, y) && s'.workers == s.workers
    ensures t.priority == p && t.group == None && s'.mem.q == PushTask(s.mem.q, t)
  {
    t := Task(|s.tasks|, p, None);
    var c := |s.calls|;
    s' := Next(s, Invoke(p, None));
    y := Go(x, s, Invoke(p, None));
    y, s' := PassChecks(y, s', c);
    y, s' := PublishOne(y, s', c);
  }

  /** Without shutdown, capacity or group it gets from the first check to the publication. */
  lemma PassChecks(x: Trace, s: State, c: nat) returns (y: Trace, s': State)
    requires Reaches(x, s) && Simple(s) && c < |s.calls| && s.calls[c].group == None && OnWatch(x.watch, s.mem.q)
    requires s.calls[c].pc == Start
    ensures Reaches(y, s') && Simple(s') && Extends(x, y) && c < |s'.calls|
    ensures s'.workers == s.workers && s'.tasks == s.tasks && s'.mem.q == s.mem.q
    ensures s'.calls[c] == s.calls[c].(pc := Publish)
  {
    y, s' := SubmitOne(x, s, c);
    y, s' := SubmitOne(y, s', c);
    y, s' := SubmitOne(y, s', c);
    y, s' := SubmitOne(y, s', c);
  }

  lemma SameShape(m: Memory, op: Op, ch: Choice)
    ensures |Exec(m, op, ch).0.q.deques| == |m.q.deques|
    ensures Exec(m, op, ch).0.shutdown ==> m.shutdown || op.StoreShutdown?
  {
  }

  /** One step of worker w, which takes up to `extra` tasks along when it takes a batch. */
  lemma WorkOne(x: Trace, s: State, w: nat, extra: nat) returns (y: Trace, s': State)
    requires Reaches(x, s) && Simple(s) && w < 3 && s.workers[w].pc != Exited && extra <= x.batch
    requires OnWatch(x.watch, Exec(s.mem, WorkerOp(w, s.workers[w].pc), Choice(false, extra)).0.q)
    ensures Reaches(y, s') && Simple(s') && Extends(x, y) && |y.states| == |x.states| + 1
    ensures var (m, a) := Exec(s.mem, WorkerOp(w, s.workers[w].pc), Choice(false, extra));
            s'.mem == m && s'.workers == s.workers[w := WorkerAfter(s.workers[w], w, 3, a, QueuedIds(s.tasks))]
  {
    SameShape(s.mem, WorkerOp(w, s.workers[w].pc), Choice(false, extra));
    s' := Next(s, Work(w, Choice(false, extra)));
    y := Go(x, s, Work(w, Choice(false, extra)));
  }

  /** The worker starts a search and finds its own deque empty. */
  lemma LookLocal(x: Trace, s: State, w: nat) returns (y: Trace, s': State)
    requires Reaches(x, s) && Simple(s) && w < 3 && s.mem.q.deques[w] == [] && OnWatch(x.watch, s.mem.q)
    requires s.workers[w].pc == Pop(Fast, Enter) && s.workers[w].streak < 32
    ensures Reaches(y, s') && Simple(s') && Extends(x, y) && s'.mem.q == s.mem.q
    ensures exists ids :: s'.workers == s.workers[w := s.workers[w].(pc := Pop(Fast, TryHigh), snapshot := ids)]
  {
    y, s' := WorkOne(x, s, w, 0);
    y, s' := WorkOne(y, s', w, 0);
    assert s'.workers == s.workers[w := s.workers[w].(pc := Pop(Fast, TryHigh), snapshot := QueuedIds(s.tasks))];
  }

  /** The worker goes on to look into NORMAL. */
  lemma LookHigh(x: Trace, s: State, w: nat) returns (y: Trace, s': State)
    requires Reaches(x, s) && Simple(s) && w < 3 && s.mem.q.deques[w] == [] && OnWatch(x.watch, s.mem.q)
    requires s.workers[w].pc == Pop(Fast, Enter) && s.workers[w].streak < 32 && s.mem.q.high == []
    ensures Reaches(y, s') && Simple(s') && Extends(x, y) && s'.mem.q == s.mem.q
    ensures exists ids :: s'.workers == s.workers[w := s.workers[w].(pc := Pop(Fast, TryNormal), snapshot := ids)]
  {
    y, s' := LookLocal(x, s, w);
    var ids :| s'.workers == s.workers[w := s.workers[w].(pc := Pop(Fast, TryHigh), snapshot := ids)];
    y, s' := WorkOne(y, s', w, 0);
    assert s'.workers == s.workers[w := s.workers[w].(pc := Pop(Fast, TryNormal), snapshot := ids)];
  }

  /** A batch of one takes the only task of an injector. */
  lemma TakeOnly(m: Memory, p: Priority, w: nat, t: Task)
    requires w < |m.q.deques| && Injector(m.q, p) == [t]
    ensures Exec(m, Batch(p, w), Choice(false, 0)) == (m.(q := WithInjector(m.q, p, [])), Got(t))
  {
    assert m.q.deques[w] + [t][1..1] == m.q.deques[w] && [t][1..] == [];
    assert TakeBatch(m.q, p, w, 0).deques == m.q.deques;
  }

  /** Worker 0 runs the task in its hand, accounts for it and comes back. */
  lemma FinishTask(x: Trace, s: State, t: Task) returns (y: Trace, s': State)
    requires Reaches(x, s) && Simple(s) && t.group == None && s.workers[0].pc == Running(t) && OnWatch(x.watch, s.mem.q)
    ensures Reaches(y, s') && Simple(s') && Extends(x, y) && s'.mem.q == s.mem.q
    ensures s'.workers == s.workers[0 := s.workers[0].(pc := Pop(Fast, Enter))]
  {
    y, s' := RunTask(x, s, t);
    y, s' := WorkOne(y, s', 0, 0);
  }

  lemma RunTask(x: Trace, s: State, t: Task) returns (y: Trace, s': State)
    requires Reaches(x, s) && Simple(s) && s.workers[0].pc == Running(t) && OnWatch(x.watch, s.mem.q)
    ensures Reaches(y, s') && Simple(s') && Extends(x, y) && s'.mem.q == s.mem.q
    ensures s'.workers == s.workers[0 := s.workers[0].(pc := ReleaseSlot(t))]
  {
    y, s' := WorkOne(x, s, 0, 0);
    assert s'.workers == s.workers[0 := s.workers[0].(pc := NoteDone(t))] && s'.mem == s.mem;
    y, s' := WorkOne(y, s', 0, 0);
  }

  // ---------- HIGH tasks in a row ----------

  /** The variables of a worker that has selected `base`, then k HIGH tasks, and has made no detour. */
  ghost predicate Selected(me: Worker, base: seq<Task>, k: nat) {
    && me.streak == k && |me.selected| == |base| + k && base <= me.selected && AllHigh(me.selected[|base|..])
    && me.detours == 0 && me.fairRetries == 0
  }

  lemma SelectHigh(me: Worker, base: seq<Task>, k: nat, t: Task)
    requires Selected(me, base, k) && t.priority == High
    ensures Selected(Selecting(me, t), base, k + 1)
  {
    assert (me.selected + [t])[|base|..] == me.selected[|base|..] + [t];
  }

  /** A HIGH task is pushed, and worker 0 takes it, runs it and comes back. */
  lemma OneHigh(x: Trace, s: State, base: seq<Task>, k: nat) returns (y: Trace, s': State)
    requires Reaches(x, s) && Simple(s) && OnWatch(x.watch, s.mem.q) && k < 32
    requires s.mem.q.high == [] && s.mem.q.deques[0] == []
    requires s.workers[0].pc == Pop(Fast, Enter) && Selected(s.workers[0], base, k)
    ensures Reaches(y, s') && Simple(s') && Extends(x, y) && s'.mem.q == s.mem.q
    ensures s'.workers[0].pc == Pop(Fast, Enter) && Selected(s'.workers[0], base, k + 1)
    ensures s'.workers[1..] == s.workers[1..] && s'.workers[0].cursor == s.workers[0].cursor
  {
    var t;
    y, s', t := HighArrives(x, s);
    assert Selected(s'.workers[0], base, k) && s'.workers[1..] == s.workers[1..];
    y, s' := TakeHigh(y, s', t, base, k);
    assert s'.mem.q == s.mem.q;
    y, s' := FinishTask(y, s', t);
  }

  /** A HIGH task arrives before worker 0 looks into HIGH. */
  lemma HighArrives(x: Trace, s: State) returns (y: Trace, s': State, t: Task)
    requires Reaches(x, s) && Simple(s) && OnWatch(x.watch, s.mem.q) && s.workers[0].streak < 32
    requires s.mem.q.high == [] && s.mem.q.deques[0] == [] && s.workers[0].pc == Pop(Fast, Enter)
    ensures Reaches(y, s') && Simple(s') && Extends(x, y) && s'.mem.q == s.mem.q.(high := [t])
    ensures exists ids :: s'.workers == s.workers[0 := s.workers[0].(pc := Pop(Fast, TryHigh), snapshot := ids)]
    ensures t.priority == High && t.group == None
  {
    y, s', t := PushOne(x, s, High);
    y, s' := LookLocal(y, s', 0);
  }

  lemma TakeHigh(x: Trace, s: State, t: Task, base: seq<Task>, k: nat) returns (y: Trace, s': State)
    requires Reaches(x, s) && Simple(s) && OnWatch(x.watch, s.mem.q) && t.priority == High && s.mem.q.high == [t]
    requires s.workers[0].pc == Pop(Fast, TryHigh) && Selected(s.workers[0], base, k)
    ensures Reaches(y, s') && Simple(s') && Extends(x, y) && s'.mem.q == s.mem.q.(high := [])
    ensures s'.workers[0].pc == Running(t) && Selected(s'.workers[0], base, k + 1)
    ensures s'.workers[1..] == s.workers[1..] && s'.workers[0].cursor == s.workers[0].cursor
  {
    TakeOnly(s.mem, High, 0, t);
    SelectHigh(s.workers[0], base, k, t);
    y, s' := WorkOne(x, s, 0, 0);
  }

  lemma {:induction false} ManyHigh(x: Trace, s: State, base: seq<Task>, k: nat) returns (y: Trace, s': State)
    requires Reaches(x, s) && Simple(s) && OnWatch(x.watch, s.mem.q) && k <= 32
    requires s.mem.q.high == [] && s.mem.q.deques[0] == []
    requires s.workers[0].pc == Pop(Fast, Enter) && Selected(s.workers[0], base, 0)
    ensures Reaches(y, s') && Simple(s') && Extends(x, y) && s'.mem.q == s.mem.q
    ensures s'.workers[0].pc == Pop(Fast, Enter) && Selected(s'.workers[0], base, k)
    ensures s'.workers[1..] == s.workers[1..] && s'.workers[0].cursor == s.workers[0].cursor
  {
    if k == 0 {
      y, s' := x, s;
    } else {
      y, s' := ManyHigh(x, s, base, k - 1);
      y, s' := OneHigh(y, s', base, k - 1);
    }
  }

  /** Worker 1 has found everything but LOW empty; then the LOW task `l` arrives, and from there on it stays. */
  lemma LowArrives() returns (x: Trace, s: State, l: Task)
    ensures Reaches(x, s) && Simple(s) && l.priority == Low && s.mem.q == Only2([], [], [l], [])
    ensures s.workers[0] == NEW_WORKER && s.workers[1].pc == Pop(Fast, TryLow)
    ensures x.watch == LowerThere && x.states[x.from] == s
  {
    x, s := Beginning(0);
    x, s := LookHigh(x, s, 1);
    x, s := WorkOne(x, s, 1, 0);
    x, s, l := PushOne(x, s, Low);
    x := KeepWatch(x, s, LowerThere);
  }

  /** After 32 HIGH selections worker 0 counts a fairness yield. */
  lemma Yielded() returns (x: Trace, s: State, l: Task)
    ensures Reaches(x, s) && Simple(s) && l.priority == Low && s.mem.q == Only2([], [], [l], [])
    ensures s.workers[0].pc == Pop(Fast, FairNormal) && s.workers[1].pc == Pop(Fast, TryLow)
    ensures var me := s.workers[0];
            me.streak == 32 && AllHigh(me.selected) && |me.selected| == 32 && me.detours == 1 && me.fairRetries == 0
    ensures x.watch == LowerThere && Simple(x.states[x.from]) && x.states[x.from].workers[0] == NEW_WORKER
  {
    x, s, l := LowArrives();
    x, s := ManyHigh(x, s, [], 32);
    var other := s.workers[1..][0];
    assert s.workers[0].selected[0..] == s.workers[0].selected;
    x, s := EnterDetour(x, s);
    assert s.workers[1] == other;
  }

  /**
   * The detour account without its correction fails: after 32 HIGH selections the worker counts a fairness yield and
   * keeps its streak of 32 until the detour is decided, so 32 * (1 - 0) + 32 exceeds the 32 HIGH tasks selected.
   */
  lemma YieldBoundFailsInDetour() returns (r: seq<State>, es: seq<Event>)
    ensures Run(r, es) && Init(r[0]) && |r[|es|].workers| == 3 && InDetour(r[|es|].workers[0].pc)
    ensures var me := r[|es|].workers[0]; 32 * (me.detours - me.fairRetries) + me.streak > Sum(me.selected, IsHigh)
  {
    var x, s, l := Yielded();
    r, es := x.states, x.events;
    SumConstant(s.workers[0].selected, IsHigh, 1);
  }

  // ---------- 33 HIGH tasks in a row ----------

  /** NORMAL is found empty; then a NORMAL task arrives, worker 1 takes the LOW one, and LOW is found empty. */
  lemma BothFoundEmpty() returns (x: Trace, s: State, h: Task, n: Task)
    ensures Reaches(x, s) && Simple(s) && h.priority == High && s.mem.q == Only2([h], [n], [], [])
    ensures s.workers[0].pc == Pop(Fast, TryLocal)
    ensures AllHigh(s.workers[0].selected) && |s.workers[0].selected| == 32
    ensures x.watch == LowerThere && Simple(x.states[x.from]) && x.states[x.from].workers[0] == NEW_WORKER
  {
    var l;
    x, s, l := Yielded();
    x, s := WorkOne(x, s, 0, 0);
    assert s.workers[0].pc == Pop(Fast, FairLow);
    x, s, n := PushOne(x, s, Normal);
    x, s, h := PushOne(x, s, High);
    assert s.mem.q == Only2([h], [n], [l], []);
    TakeOnly(s.mem, Low, 1, l);
    x, s := WorkOne(x, s, 1, 0);
    assert s.mem.q == Only2([h], [n], [], []);
    x, s := WorkOne(x, s, 0, 0);
  }

  /**
   * It is not enough for the burst limit that at every moment NORMAL or LOW has something: here that is so from state i
   * on, yet worker 0 selects 33 HIGH tasks and nothing else, because the two injectors are looked into one after the
   * other and each is empty when its turn comes.
   */
  lemma BurstNeedsOneInjector() returns (r: seq<State>, es: seq<Event>, i: nat, j: nat)
    ensures Run(r, es) && Init(r[0]) && i <= j < |r| && |r[i].workers| == |r[j].workers| == 3
    ensures forall k :: i <= k <= j ==> r[k].mem.q.normal != [] || r[k].mem.q.low != []
    ensures |r[i].workers[0].selected| <= |r[j].workers[0].selected|
    ensures |Since(r[i].workers[0], r[j].workers[0])| == 33 && AllHigh(Since(r[i].workers[0], r[j].workers[0]))
  {
    var x, s, h, n := BothFoundEmpty();
    var me := s.workers[0].selected;
    x, s := WorkOne(x, s, 0, 0);
    TakeOnly(s.mem, High, 0, h);
    x, s := WorkOne(x, s, 0, 0);
    r, es, i, j := x.states, x.events, x.from, |x.events|;
    assert s.workers[0].selected == me + [h];
    assert s.workers[0].selected[0..] == me + [h];
  }

  // ---------- Stocking up ----------

  /** Worker 2 takes two tasks of priority p: one is in its hand, the other, `t`, in its deque. */
  lemma Stocked(batch: nat, p: Priority) returns (x: Trace, s: State, t: Task)
    requires batch >= 1 && p != Low
    ensures Reaches(x, s) && Simple(s) && x.batch == batch && x.watch == Anything && t.group == None && t.priority == p
    ensures s.mem.q == Only2([], [], [], [t]) && s.workers[0] == NEW_WORKER
  {
    var t0;
    x, s, t0, t := TwoArrive(batch, p);
    if p == High { x, s := LookLocal(x, s, 2); } else { x, s := LookHigh(x, s, 2); }
    TakeTwo(s.mem, p, t0, t);
    x, s := WorkOne(x, s, 2, 1);
  }

  lemma TwoArrive(batch: nat, p: Priority) returns (x: Trace, s: State, t0: Task, t: Task)
    ensures Reaches(x, s) && Simple(s) && x.batch == batch && x.watch == Anything && t.group == None && t.priority == p
    ensures s.mem.q == WithInjector(Only2([], [], [], []), p, [t0, t])
    ensures s.workers == [NEW_WORKER, NEW_WORKER, NEW_WORKER]
  {
    x, s := Beginning(batch);
    x, s, t0 := PushOne(x, s, p);
    x, s, t := PushOne(x, s, p);
  }

  lemma TakeTwo(m: Memory, p: Priority, t0: Task, t: Task)
    requires m.q == WithInjector(Only2([], [], [], []), p, [t0, t])
    ensures Exec(m, Batch(p, 2), Choice(false, 1)) == (m.(q := Only2([], [], [], [t])), Got(t0))
  {
    assert [t0, t][1..2] == [t] && [] + [t] == [t] && [t0, t][2..] == [];
    assert TakeBatch(m.q, p, 2, 1).deques == [[], [], [t]];
  }

  predicate AllOf(ts: seq<Task>, p: Priority) {
    forall i :: 0 <= i < |ts| ==> ts[i].priority == p && ts[i].group == None
  }

  /** k tasks of priority p arrive one after the other. */
  lemma {:induction false} PushMany(x: Trace, s: State, p: Priority, k: nat)
    returns (y: Trace, s': State, ts: seq<Task>)
    requires Reaches(x, s) && Simple(s) && x.watch == Anything
    ensures Reaches(y, s') && Simple(s') && Extends(x, y) && s'.workers == s.workers
    ensures |ts| == k && AllOf(ts, p) && s'.mem.q == WithInjector(s.mem.q, p, Injector(s.mem.q, p) + ts)
  {
    if k == 0 {
      y, s', ts := x, s, [];
      assert Injector(s.mem.q, p) + [] == Injector(s.mem.q, p);
    } else {
      y, s', ts := PushMany(x, s, p, k - 1);
      var t;
      y, s', t := PushOne(y, s', p);
      assert Injector(s.mem.q, p) + (ts + [t]) == Injector(s.mem.q, p) + ts + [t];
      ts := ts + [t];
    }
  }

  /** A full batch empties an injector of `batch` + 1 tasks. */
  lemma TakeAll(m: Memory, p: Priority, w: nat, ts: seq<Task>, batch: nat)
    requires w < |m.q.deques| && m.q.deques[w] == [] && Injector(m.q, p) == ts && |ts| == batch + 1
    ensures Exec(m, Batch(p, w), Choice(false, batch))
            == (m.(q := WithInjector(m.q, p, []).(deques := m.q.deques[w := ts[1..]])), Got(ts[0]))
  {
    assert ts[1..1 + batch] == ts[1..] && ts[1 + batch..] == [] && [] + ts[1..] == ts[1..];
  }

  /** Worker 0 pops and runs everything in its deque, none of it HIGH. */
  lemma {:induction false} PopMany(x: Trace, s: State, ts: seq<Task>, p: Priority) returns (y: Trace, s': State)
    requires Reaches(x, s) && Simple(s) && x.watch == Anything && s.mem.q.deques[0] == ts && AllOf(ts, p) && p != High
    requires s.workers[0].pc == Pop(Fast, Enter) && s.workers[0].streak == 0
    ensures Reaches(y, s') && Simple(s') && Extends(x, y) && s'.mem.q.high == s.mem.q.high
    ensures |s'.workers[0].selected| == |s.workers[0].selected| + |ts|
    decreases |ts|
  {
    if ts == [] {
      y, s' := x, s;
    } else {
      y, s' := PopOne(x, s, ts[0]);
      y, s' := PopMany(y, s', ts[1..], p);
    }
  }

  lemma PopOne(x: Trace, s: State, t: Task) returns (y: Trace, s': State)
    requires Reaches(x, s) && Simple(s) && x.watch == Anything && t.priority != High && t.group == None
    requires s.mem.q.deques[0] != [] && s.mem.q.deques[0][0] == t
    requires s.workers[0].pc == Pop(Fast, Enter) && s.workers[0].streak == 0
    ensures Reaches(y, s') && Simple(s') && Extends(x, y)
    ensures s'.mem.q.high == s.mem.q.high && s'.mem.q.deques[0] == s.mem.q.deques[0][1..]
    ensures s'.workers[0].pc == Pop(Fast, Enter) && s'.workers[0].streak == 0
    ensures |s'.workers[0].selected| == |s.workers[0].selected| + 1
  {
    y, s' := TakeFirst(x, s, t);
    y, s' := FinishTask(y, s', t);
  }

  lemma TakeFirst(x: Trace, s: State, t: Task) returns (y: Trace, s': State)
    requires Reaches(x, s) && Simple(s) && x.watch == Anything && t.priority != High
    requires s.mem.q.deques[0] != [] && s.mem.q.deques[0][0] == t
    requires s.workers[0].pc == Pop(Fast, Enter) && s.workers[0].streak == 0
    ensures Reaches(y, s') && Simple(s') && Extends(x, y) && s'.mem.q == TakeFront(s.mem.q, 0)
    ensures s'.workers[0].pc == Running(t) && s'.workers[0].streak == 0
    ensures |s'.workers[0].selected| == |s.workers[0].selected| + 1
  {
    y, s' := WorkOne(x, s, 0, 0);
    assert s'.workers[0] == s.workers[0].(pc := Pop(Fast, TryLocal), snapshot := QueuedIds(s.tasks)) && s'.mem == s.mem;
    y, s' := WorkOne(y, s', 0, 0);
  }

  /** Worker 0 takes a full batch from injector p and runs all of it. */
  lemma RunBatch(x: Trace, s: State, p: Priority, ts: seq<Task>) returns (y: Trace, s': State)
    requires Reaches(x, s) && Simple(s) && x.watch == Anything && s.mem.q.deques[0] == []
    requires p != High && Injector(s.mem.q, p) == ts && |ts| == x.batch + 1 && AllOf(ts, p)
    requires s.workers[0].pc in {Pop(Fast, FairNormal), Pop(Fast, TryLow)}
    requires WorkerOp(0, s.workers[0].pc) == Batch(p, 0)
    ensures Reaches(y, s') && Simple(s') && Extends(x, y) && s'.mem.q.high == s.mem.q.high
    ensures |s'.workers[0].selected| == |s.workers[0].selected| + 1 + x.batch
  {
    y, s' := StartBatch(x, s, p, ts);
    y, s' := FinishTask(y, s', ts[0]);
    assert s'.workers[0].pc == Pop(Fast, Enter) && s'.workers[0].streak == 0 && AllOf(ts[1..], p);
    y, s' := PopMany(y, s', ts[1..], p);
  }

  lemma StartBatch(x: Trace, s: State, p: Priority, ts: seq<Task>) returns (y: Trace, s': State)
    requires Reaches(x, s) && Simple(s) && x.watch == Anything && s.mem.q.deques[0] == []
    requires p != High && Injector(s.mem.q, p) == ts && |ts| == x.batch + 1 && AllOf(ts, p)
    requires s.workers[0].pc in {Pop(Fast, FairNormal), Pop(Fast, TryLow)}
    requires WorkerOp(0, s.workers[0].pc) == Batch(p, 0)
    ensures Reaches(y, s') && Simple(s') && Extends(x, y) && s'.mem.q.high == s.mem.q.high
    ensures s'.workers[0].pc == Running(ts[0]) && s'.workers[0].streak == 0 && s'.mem.q.deques[0] == ts[1..]
    ensures |s'.workers[0].selected| == |s.workers[0].selected| + 1
  {
    TakeAll(s.mem, p, 0, ts, x.batch);
    y, s' := WorkOne(x, s, 0, x.batch);
  }

  // ---------- A search that has passed the HIGH injector ----------

  /** Where worker 0 of 3 looks after the HIGH injector, up to its second victim. */
  function LateProbe(k: nat): Probe {
    match k
    case 0 => TryNormal
    case 1 => TryLow
    case 2 => Choose
    case 3 => Attempt([1, 2])
    case 4 => Steal([1, 2])
    case 5 => Missed([1, 2])
    case 6 => Attempt([2])
    case _ => Steal([2])
  }

  lemma FirstVictims()
    ensures VictimList(3, 0, 0) == [1, 2]
  {
    var ring := Ring(3, 1);
    assert ring == [1, 2, 0];
    assert ring[..2] == [1, 2] && ring[..2][..1] == [1] && [1][..0] == [];
    assert Without([1], 0) == [1];
    assert Without([1, 2], 0) == [1, 2];
  }

  /** Worker 0 after k of these probes. */
  function Late(me: Worker, k: nat): Worker {
    me.(pc := Pop(Fast, LateProbe(k)), cursor := if k < 3 then 0 else 1)
  }

  /** State z has the queues of state s, and its worker 0 has made k of these probes. */
  predicate LateAt(s: State, z: State, k: nat) {
    s.workers != [] && z.mem.q == s.mem.q && z.cfg == s.cfg && z.workers == s.workers[0 := Late(s.workers[0], k)]
  }

  /** Probe k finds nothing. */
  predicate FindsNothing(q: Queues, k: nat) {
    (k == 0 ==> q.normal == []) && (k == 1 ==> q.low == []) && |q.deques| == 3 && q.deques[1] == []
  }

  lemma LateStep(me: Worker, m: Memory, k: nat, queued: set<nat>)
    requires k < 7 && FindsNothing(m.q, k)
    ensures var (m', r) := Exec(m, WorkerOp(0, Late(me, k).pc), Choice(false, 0));
            m'.q == m.q && WorkerAfter(Late(me, k), 0, 3, r, queued) == Late(me, k + 1)
  {
    if k == 2 { FirstVictims(); }
  }

  lemma LateOne(x: Trace, s: State, z: State, k: nat) returns (y: Trace, z': State)
    requires Reaches(x, z) && Simple(z) && OnWatch(x.watch, z.mem.q) && k < 7 && LateAt(s, z, k)
    requires FindsNothing(z.mem.q, k)
    ensures Reaches(y, z') && Simple(z') && Extends(x, y) && |y.states| == |x.states| + 1 && LateAt(s, z', k + 1)
  {
    LateStep(s.workers[0], z.mem, k, QueuedIds(z.tasks));
    assert z.workers[0] == Late(s.workers[0], k);
    y, z' := WorkOne(x, z, 0, 0);
  }

  /** From state i on, worker 0 makes the probes a to k. */
  ghost predicate LateStates(r: seq<State>, i: nat, a: nat, k: nat, s: State) {
    a <= k && i + k - a < |r| && forall l :: i <= l <= i + k - a ==> LateAt(s, r[l], a + l - i)
  }

  /** Worker 0, about to make probe a, goes on to probe k and finds nothing on the way. */
  lemma {:induction false} LateSearch(x: Trace, s: State, a: nat, k: nat) returns (y: Trace, s': State)
    requires Reaches(x, s) && Simple(s) && OnWatch(x.watch, s.mem.q) && a <= k < 8 && LateAt(s, s, a)
    requires forall l :: a <= l < k ==> FindsNothing(s.mem.q, l)
    ensures Reaches(y, s') && Simple(s') && Extends(x, y) && |y.states| == |x.states| + k - a
    ensures LateAt(s, s', k) && LateStates(y.states, |x.events|, a, k, s)
  {
    if k == a {
      y, s' := x, s;
    } else {
      var z, u := LateSearch(x, s, a, k - 1);
      assert FindsNothing(s.mem.q, k - 1);
      y, s' := LateOne(z, s, u, k - 1);
    }
  }

  /**
   * From state k to state j worker 0 makes one selection less than the bound of `BoundedInversion`, surcharge included,
   * and the head of the HIGH injector is still there: at state k no smaller bound holds.
   */
  ghost predicate ReachesBound(r: seq<State>, k: nat, j: nat) {
    && k <= j < |r| && |r[k].workers| == |r[j].workers| == |r[k].mem.q.deques| == 3 && r[k].mem.q.high != []
    && var d, me, batch := r[k].mem.q.deques[0], r[k].workers[0], r[k].cfg.batch;
       && |r[j].workers[0].selected|
          == |me.selected| + |d| + (me.streak + HighIn(d)) / 32 * (1 + batch) + Surcharge(me, 3, batch, 0)
       && r[k].mem.q.high[0] in r[j].mem.q.high
  }

  /** In state i + l - a worker 0 is at probe l with this streak, and by state j it has used up its surcharge. */
  ghost predicate UsesUp(r: seq<State>, i: nat, a: nat, l: nat, j: nat, streak: nat) {
    && a <= l && ReachesBound(r, i + l - a, j)
    && r[i + l - a].workers[0].pc == Pop(Fast, LateProbe(l)) && r[i + l - a].workers[0].streak == streak
  }

  /** What that surcharge is. */
  function SurchargeAt(r: seq<State>, i: nat, a: nat, l: nat): nat
    requires a <= l && i + l - a < |r| && r[i + l - a].workers != []
  {
    Surcharge(r[i + l - a].workers[0], 3, r[i + l - a].cfg.batch, 0)
  }

  /** If the selections up to state j are as many as the surcharge, the bound is reached from every probe. */
  lemma SurchargeUsed(r: seq<State>, s: State, i: nat, a: nat, l: nat, k: nat, j: nat, surcharge: nat)
    requires LateStates(r, i, a, k, s) && a <= l <= k < 8 && i + k - a <= j < |r| && Simple(s) && |r[j].workers| == 3
    requires s.mem.q.high != [] && s.mem.q.high[0] in r[j].mem.q.high && s.mem.q.deques[0] == []
    requires s.workers[0].streak < 32 && Surcharge(Late(s.workers[0], l), 3, s.cfg.batch, 0) == surcharge
    requires |r[j].workers[0].selected| == |s.workers[0].selected| + surcharge
    ensures UsesUp(r, i, a, l, j, s.workers[0].streak) && SurchargeAt(r, i, a, l) == surcharge
  {
    assert LateAt(s, r[i + l - a], a + (i + l - a) - i);
    assert HighIn([]) == 0;
    assert s.workers[0].streak / 32 == 0;
  }

  /** The probes made so far stay on record while the run goes on. */
  lemma StillLate(x: Trace, y: Trace, i: nat, a: nat, k: nat, s: State)
    requires Extends(x, y) && LateStates(x.states, i, a, k, s)
    ensures LateStates(y.states, i, a, k, s)
  {
    forall l | i <= l <= i + k - a ensures LateAt(s, y.states[l], a + l - i) {
      assert y.states[l] == x.states[l];
    }
  }

  /** Worker 0 steals the only task of worker 2. */
  lemma StealOne(x: Trace, s: State, t: Task) returns (y: Trace, s': State)
    requires Reaches(x, s) && Simple(s) && OnWatch(x.watch, s.mem.q)
    requires s.mem.q.deques == [[], [], [t]] && s.workers[0].pc == Pop(Fast, Steal([2]))
    ensures Reaches(y, s') && Simple(s') && Extends(x, y) && s'.mem.q == s.mem.q.(deques := [[], [], []])
    ensures |y.states| == |x.states| + 1
    ensures s'.workers == s.workers[0 := Selecting(s.workers[0], t).(pc := Stolen(Fast, t))]
  {
    StealOnly(s.mem, t);
    y, s' := WorkOne(x, s, 0, 0);
  }

  lemma StealOnly(m: Memory, t: Task)
    requires m.q.deques == [[], [], [t]]
    ensures Exec(m, StealFrom(2), Choice(false, 0)) == (m.(q := m.q.(deques := [[], [], []])), Got(t))
  {
    assert [t][1..] == [] && TakeFront(m.q, 2).deques == [[], [], []];
  }

  /** And runs it and comes back. */
  lemma StealAndRun(x: Trace, s: State, t: Task) returns (y: Trace, s': State)
    requires Reaches(x, s) && Simple(s) && OnWatch(x.watch, s.mem.q) && t.group == None
    requires s.mem.q.deques == [[], [], [t]] && s.workers[0].pc == Pop(Fast, Steal([2]))
    ensures Reaches(y, s') && Simple(s') && Extends(x, y) && s'.mem.q == s.mem.q.(deques := [[], [], []])
    ensures s'.workers == s.workers[0 := Selecting(s.workers[0], t).(pc := Pop(Fast, Enter))]
  {
    y, s' := StealOne(x, s, t);
    y, s' := CountSteal(y, s', t);
    y, s' := FinishTask(y, s', t);
  }

  lemma CountSteal(x: Trace, s: State, t: Task) returns (y: Trace, s': State)
    requires Reaches(x, s) && Simple(s) && OnWatch(x.watch, s.mem.q) && s.workers[0].pc == Stolen(Fast, t)
    ensures Reaches(y, s') && Simple(s') && Extends(x, y) && s'.mem.q == s.mem.q
    ensures s'.workers == s.workers[0 := s.workers[0].(pc := Running(t))]
  {
    y, s' := WorkOne(x, s, 0, 0);
  }

  // ---------- A surcharge of one ----------

  /** Worker 0 has found HIGH, NORMAL and LOW empty; then a HIGH task arrives, and it steals `n` from worker 2. */
  lemma StealsInstead(batch: nat) returns (x: Trace, before: State, s: State, i: nat)
    requires batch >= 1
    ensures Reaches(x, s) && Simple(s) && Simple(before) && x.batch == batch && before.cfg.batch == batch
    ensures i + 5 < |x.events| && LateStates(x.states, i, 2, 7, before)
    ensures before.mem.q.high != [] && before.mem.q.high[0] in s.mem.q.high && before.mem.q.deques[0] == []
    ensures before.workers[0].streak == 0 && |s.workers[0].selected| == |before.workers[0].selected| + 1
  {
    var n, h;
    x, s, n := Stocked(batch, Normal);
    x, s := LookHigh(x, s, 0);
    x, s := LateSearch(x, s, 0, 2);
    x, before, h := PushOne(x, s, High);
    i := |x.events|;
    var searched;
    searched, s := LateSearch(x, before, 2, 7);
    x, s := StealOne(searched, s, n);
    StillLate(searched, x, i, 2, 7, before);
  }

  /**
   * Among the peers the inversion bound needs its surcharge of one, for every batch size but zero: with an empty deque
   * and no streak, from the choice of victims, an attempt, a steal and a miss with victims left, the next selection is
   * a stolen NORMAL task while the HIGH task stays at the head of its injector.
   */
  lemma InversionNeedsOne(batch: nat) returns (r: seq<State>, es: seq<Event>, i: nat, j: nat)
    requires batch >= 1
    ensures Run(r, es) && Init(r[0]) && i + 5 < j < |r| && r[j].cfg.batch == batch
    ensures forall l :: 2 <= l < 8 ==> UsesUp(r, i, 2, l, j, 0) && SurchargeAt(r, i, 2, l) == 1
  {
    var x, before, s;
    x, before, s, i := StealsInstead(batch);
    r, es, j := x.states, x.events, |x.events|;
    forall l | 2 <= l < 8 ensures UsesUp(r, i, 2, l, j, 0) && SurchargeAt(r, i, 2, l) == 1 {
      SurchargeUsed(r, before, i, 2, l, 7, j, 1);
    }
  }

  // ---------- A surcharge of 1 + B ----------

  /** Worker 0 has found HIGH empty; then a batch of LOW tasks and a HIGH task arrive. */
  lemma BatchArrives(batch: nat) returns (x: Trace, s: State, ts: seq<Task>)
    ensures Reaches(x, s) && Simple(s) && x.batch == batch && x.watch == Anything
    ensures s.mem.q.high != [] && s.mem.q.normal == [] && s.mem.q.low == ts && s.mem.q.deques == [[], [], []]
    ensures |ts| == batch + 1 && AllOf(ts, Low)
    ensures LateAt(s, s, 0) && s.workers[0].streak == 0
  {
    var h;
    x, s := Beginning(batch);
    x, s := LookHigh(x, s, 0);
    x, s, ts := PushMany(x, s, Low, batch + 1);
    x, s, h := PushOne(x, s, High);
  }

  /** It runs the batch first. */
  lemma BatchInstead(batch: nat) returns (x: Trace, before: State, s: State, i: nat)
    ensures Reaches(x, s) && Simple(s) && Simple(before) && x.batch == batch && before.cfg.batch == batch
    ensures i + 1 < |x.states| && LateStates(x.states, i, 0, 1, before)
    ensures before.mem.q.high != [] && before.mem.q.high[0] in s.mem.q.high && before.mem.q.deques[0] == []
    ensures before.workers[0].streak == 0 && |s.workers[0].selected| == |before.workers[0].selected| + 1 + batch
  {
    var ts;
    x, before, ts := BatchArrives(batch);
    i := |x.events|;
    var searched, found := LateSearch(x, before, 0, 1);
    assert found.workers[0] == Late(before.workers[0], 1);
    x, s := RunBatch(searched, found, Low, ts);
    StillLate(searched, x, i, 0, 1, before);
  }

  /**
   * Before NORMAL and before LOW the inversion bound needs its surcharge of 1 + B, for every batch size: the worker
   * runs a full batch of LOW tasks first.
   */
  lemma InversionNeedsBatch(batch: nat) returns (r: seq<State>, es: seq<Event>, i: nat, j: nat)
    ensures Run(r, es) && Init(r[0]) && i + 1 <= j < |r| && r[j].cfg.batch == batch
    ensures forall l :: 0 <= l < 2 ==> UsesUp(r, i, 0, l, j, 0) && SurchargeAt(r, i, 0, l) == 1 + batch
  {
    var x, before, s;
    x, before, s, i := BatchInstead(batch);
    r, es, j := x.states, x.events, |x.events|;
    forall l | 0 <= l < 2 ensures UsesUp(r, i, 0, l, j, 0) && SurchargeAt(r, i, 0, l) == 1 + batch {
      SurchargeUsed(r, before, i, 0, l, 1, j, 1 + batch);
    }
  }

  // ---------- A surcharge of 2 + B ----------

  /** Worker 0, one short of a full burst, has found HIGH empty, and worker 2 has a HIGH task in its deque. */
  lemma OneShort(batch: nat) returns (x: Trace, s: State, t: Task, h: Task)
    requires batch >= 1
    ensures Reaches(x, s) && Simple(s) && x.batch == batch && x.watch == Anything
    ensures s.mem.q == Only2([h], [], [], [t]) && t.priority == High && t.group == None
    ensures LateAt(s, s, 0) && s.workers[0].streak == 31
  {
    x, s, t := Stocked(batch, High);
    x, s := ManyHigh(x, s, [], 31);
    x, s := LookHigh(x, s, 0);
    x, s, h := PushOne(x, s, High);
  }

  /** About to steal the HIGH task, it does so, and its burst is full. */
  lemma StealHigh(x: Trace, s: State, t: Task) returns (y: Trace, s': State)
    requires Reaches(x, s) && Simple(s) && x.watch == Anything && t.priority == High && t.group == None
    requires s.mem.q.deques == [[], [], [t]] && s.workers[0].pc == Pop(Fast, Steal([2])) && s.workers[0].streak == 31
    ensures Reaches(y, s') && Simple(s') && Extends(x, y) && s'.mem.q == s.mem.q.(deques := [[], [], []])
    ensures s'.workers[0].pc == Pop(Fast, Enter) && s'.workers[0].streak == 32
    ensures |s'.workers[0].selected| == |s.workers[0].selected| + 1
  {
    y, s' := StealAndRun(x, s, t);
  }

  /** With a full burst, worker 0 enters the fairness path. */
  lemma EnterDetour(x: Trace, s: State) returns (y: Trace, s': State)
    requires Reaches(x, s) && Simple(s) && OnWatch(x.watch, s.mem.q)
    requires s.workers[0].pc == Pop(Fast, Enter) && s.workers[0].streak == 32
    ensures Reaches(y, s') && Simple(s') && Extends(x, y) && s'.mem.q == s.mem.q
    ensures s'.workers[1..] == s.workers[1..]
    ensures var me, me' := s.workers[0], s'.workers[0];
            me' == me.(pc := Pop(Fast, FairNormal), snapshot := me'.snapshot, detours := me.detours + 1)
  {
    y, s' := WorkOne(x, s, 0, 0);
    assert s'.workers[0].pc == Pop(Fast, Yield) && s'.mem == s.mem;
    y, s' := WorkOne(y, s', 0, 0);
  }

  /** While it looks for victims a batch of NORMAL tasks arrives; it steals, makes its detour, and runs the batch. */
  lemma BurstInstead(batch: nat) returns (x: Trace, before: State, s: State, i: nat)
    requires batch >= 1
    ensures Reaches(x, s) && Simple(s) && Simple(before) && x.batch == batch && before.cfg.batch == batch
    ensures i + 7 < |x.states| && LateStates(x.states, i, 0, 7, before)
    ensures before.mem.q.high != [] && before.mem.q.high[0] in s.mem.q.high && before.mem.q.deques[0] == []
    ensures before.workers[0].streak == 31 && |s.workers[0].selected| == |before.workers[0].selected| + 2 + batch
  {
    var t, h, ts;
    x, before, t, h := OneShort(batch);
    i := |x.events|;
    var searched;
    searched, s := LateSearch(x, before, 0, 7);
    x, s, ts := PushMany(searched, s, Normal, batch + 1);
    x, s := StealHigh(x, s, t);
    x, s := EnterDetour(x, s);
    x, s := RunBatch(x, s, Normal, ts);
    StillLate(searched, x, i, 0, 7, before);
  }

  /**
   * With peers and a streak of 31 the inversion bound needs its surcharge of 2 + B at every probe past the HIGH
   * injector, for every batch size but zero: the worker steals a HIGH task, which fills its burst, and then runs a full
   * batch of NORMAL tasks.
   */
  lemma InversionNeedsBurst(batch: nat) returns (r: seq<State>, es: seq<Event>, i: nat, j: nat)
    requires batch >= 1
    ensures Run(r, es) && Init(r[0]) && i + 7 <= j < |r| && r[j].cfg.batch == batch
    ensures forall l :: 0 <= l < 8 ==> UsesUp(r, i, 0, l, j, 31) && SurchargeAt(r, i, 0, l) == 2 + batch
  {
    var x, before, s;
    x, before, s, i := BurstInstead(batch);
    r, es, j := x.states, x.events, |x.events|;
    forall l | 0 <= l < 8 ensures UsesUp(r, i, 0, l, j, 31) && SurchargeAt(r, i, 0, l) == 2 + batch {
      SurchargeUsed(r, before, i, 0, l, 7, j, 2 + batch);
    }
  }

  // ---------- A search with peers still to try ----------

  /** Worker 0 has found all injectors empty when a task arrives in injector p; worker 2 has `n` in its deque. */
  lemma LowerArrives(p: Priority) returns (x: Trace, s: State, n: Task)
    requires p != High
    ensures Reaches(x, s) && Simple(s) && x.from == |x.events| && x.watch == WatchFor(p)
    ensures LateAt(s, s, 2) && Selected(s.workers[0], [], 0) && s.workers[0].selected == []
    ensures Injector(s.mem.q, p) != [] && s.mem.q.high == [] && s.mem.q.deques == [[], [], [n]]
    ensures n.group == None && n.priority == Normal && OnWatch(x.watch, s.mem.q)
  {
    var l;
    x, s, n := Stocked(1, Normal);
    x, s := LookHigh(x, s, 0);
    x, s := LateSearch(x, s, 0, 2);
    x, s, l := PushOne(x, s, p);
    x := KeepWatch(x, s, WatchFor(p));
  }

  /** Then it goes on to its second victim, steals `n` and runs it. */
  lemma StealsLower(p: Priority) returns (x: Trace, before: State, s: State, i: nat, n: Task)
    requires p != High
    ensures Reaches(x, s) && Simple(s) && Simple(before) && x.from == i && x.watch == WatchFor(p)
    ensures i + 5 < |x.states| && LateStates(x.states, i, 2, 7, before) && before.workers[0].selected == []
    ensures Injector(before.mem.q, p) != [] && s.mem.q == before.mem.q.(deques := [[], [], []]) && s.mem.q.high == []
    ensures before.mem.q.deques[0] == [] && s.workers[0].pc == Pop(Fast, Enter) && Selected(s.workers[0], [n], 0)
  {
    x, before, n := LowerArrives(p);
    i := |x.events|;
    var searched;
    searched, s := LateSearch(x, before, 2, 7);
    assert s.workers[0] == Late(before.workers[0], 7);
    x, s := StealAndRun(searched, s, n);
    StillLate(searched, x, i, 2, 7, before);
  }

  /** The bound on LOW progress assumes that NORMAL stays empty. */
  function WatchFor(p: Priority): Watch {
    if p == Low then NormalEmpty else Anything
  }

  /** In state i + l - 2 worker 0 is at probe l with peers still to try and nothing ahead of the task in injector p. */
  ghost predicate NothingAhead(r: seq<State>, i: nat, l: nat, p: Priority) {
    && 2 <= l && i + l - 2 < |r| && |r[i + l - 2].workers| == |r[i + l - 2].mem.q.deques| == 3
    && r[i + l - 2].workers[0].pc == Pop(Fast, LateProbe(l)) && PeersAhead(r[i + l - 2].workers[0].pc, 3)
    && LowerIn(r[i + l - 2].mem.q.deques[0]) == 0 && Injector(r[i + l - 2].mem.q, p) != []
  }

  /** From there to state j it makes 33 selections, and the task is still there. */
  ghost predicate NeedsOneMore(r: seq<State>, i: nat, l: nat, j: nat, p: Priority) {
    && NothingAhead(r, i, l, p) && i + l - 2 <= j < |r| && |r[j].workers| == 3
    && |r[j].workers[0].selected| == |r[i + l - 2].workers[0].selected| + 33
    && Injector(r[i + l - 2].mem.q, p)[0] in Injector(r[j].mem.q, p)
  }

  /**
   * The bounds on NORMAL and LOW progress do need their one selection more, at every probe with peers still to try:
   * with nothing ahead of the task and nothing in the worker's deque, and for LOW with NORMAL empty throughout, the
   * worker makes 33 selections, a stolen NORMAL task and 32 HIGH ones, and the task is still in its injector.
   */
  lemma LowerNeedsOneMore(p: Priority) returns (r: seq<State>, es: seq<Event>, i: nat, j: nat)
    requires p != High
    ensures Run(r, es) && Init(r[0]) && i + 5 <= j < |r| && (p == Low ==> LowerProgress.NormalEmpty(r, i, j))
    ensures forall l :: 2 <= l < 8 ==> NeedsOneMore(r, i, l, j, p)
  {
    var x, before, s, n;
    x, before, s, i, n := StealsLower(p);
    var arrived := x;
    x, s := ManyHigh(x, s, [n], 32);
    StillLate(arrived, x, i, 2, 7, before);
    r, es, j := x.states, x.events, |x.events|;
    forall l | 2 <= l < 8 ensures NeedsOneMore(r, i, l, j, p) {
      assert LateAt(before, r[i + l - 2], 2 + (i + l - 2) - i);
    }
  }
}
