/** How long a task can sit in a deque while its owner keeps selecting. */
module Residence {
  import opened Sums
  import opened Queues
  import opened Memory
  import opened Programs
  import opened Machine
  import opened Custody
  import opened Searching
  import opened Ordering
  import opened Fairness
  import opened Surroundings

  /**
   * Selections the owner can still make before it takes the task at index k: the k tasks ahead of it, and a detour per
   * 32 HIGH selections on the way.
   */
  function Stay(d: seq<Task>, me: Worker, k: nat): int
    requires k <= |d|
  {
    k + (me.streak + HighIn(d[..k])) / HIGH_BURST_LIMIT
  }

  predicate At(d: seq<Task>, k: int, t: Task) {
    if k < 0 then t !in d else k < |d| && d[k] == t
  }

  /** A duplicate-free deque without its front no longer contains the front. */
  lemma FrontLeaves(d: seq<Task>, k: nat, t: Task)
    requires Increasing(d) && k < |d| && d[k] == t
    ensures At(d[1..], k - 1, t)
  {
    if k == 0 {
      forall i | 0 <= i < |d[1..]| ensures d[1..][i] != t { assert d[1..][i] == d[i + 1]; }
    }
  }

  /** One place forward: the tasks ahead are the same without the front. */
  lemma Forward(d: seq<Task>, k: nat)
    requires 0 < k <= |d|
    ensures HighIn(d[..k]) == IsHigh(d[0]) + HighIn(d[1..][..k - 1]) && HighIn(d[1..][..k - 1]) >= 0
  {
    assert d[..k][1..] == d[1..][..k - 1];
    SumTail(d[..k], IsHigh);
    HighInBounds(d[1..][..k - 1]);
  }

  lemma PopStay(m: Memory, w: nat, me: Worker, ch: Choice, n: nat, queued: set<nat>, published: nat, k: nat)
    requires Placed(m, w, me, published) && k < |m.q.deques[w]|
    requires WorkerOp(w, me.pc).PopLocal?
    ensures var (m', r) := Exec(m, WorkerOp(w, me.pc), ch);
            var me' := WorkerAfter(me, w, n, r, queued);
            && |m'.q.deques| == |m.q.deques|
            && At(m'.q.deques[w], k - 1, m.q.deques[w][k])
            && (k > 0 ==>
                  Stay(m'.q.deques[w], me', k - 1) + |me'.selected| <= Stay(m.q.deques[w], me, k) + |me.selected|)
  {
    SelectedStep(me, w, n, m, ch, queued);
    StreakMoves(me, m, ch, w, n, queued);
    FrontLeaves(m.q.deques[w], k, m.q.deques[w][k]);
    if k > 0 { Forward(m.q.deques[w], k); }
  }

  lemma IdleStay(m: Memory, w: nat, me: Worker, ch: Choice, n: nat, queued: set<nat>, published: nat, k: nat)
    requires Placed(m, w, me, published) && k < |m.q.deques[w]|
    requires !WorkerOp(w, me.pc).PopLocal? && !Exec(m, WorkerOp(w, me.pc), ch).1.Got?
    ensures var (m', r) := Exec(m, WorkerOp(w, me.pc), ch);
            var me' := WorkerAfter(me, w, n, r, queued);
            && |m'.q.deques| == |m.q.deques|
            && At(m'.q.deques[w], k, m.q.deques[w][k])
            && Stay(m'.q.deques[w], me', k) + |me'.selected| <= Stay(m.q.deques[w], me, k) + |me.selected|
  {
    OwnBatch(me.pc, w);
    ExecShape(m, WorkerOp(w, me.pc), ch);
    SelectedStep(me, w, n, m, ch, queued);
    StreakMoves(me, m, ch, w, n, queued);
  }

  /** With something in its deque a worker only takes from elsewhere on a detour. */
  lemma OnlyDetours(q: Queues, w: nat, me: Worker, published: nat)
    requires w < |q.deques| && SearchOk(q, w, me, published) && q.deques[w] != []
    ensures WorkerOp(w, me.pc).Batch? ==> InDetour(me.pc)
    ensures !WorkerOp(w, me.pc).StealFrom?
  {
  }

  lemma DetourStay(m: Memory, w: nat, me: Worker, ch: Choice, n: nat, queued: set<nat>, published: nat, k: nat)
    requires Placed(m, w, me, published) && k < |m.q.deques[w]|
    requires InDetour(me.pc) && Exec(m, WorkerOp(w, me.pc), ch).1.Got?
    ensures var (m', r) := Exec(m, WorkerOp(w, me.pc), ch);
            var me' := WorkerAfter(me, w, n, r, queued);
            && |m'.q.deques| == |m.q.deques|
            && At(m'.q.deques[w], k, m.q.deques[w][k])
            && Stay(m'.q.deques[w], me', k) + |me'.selected| <= Stay(m.q.deques[w], me, k) + |me.selected|
  {
    var d := m.q.deques[w];
    SelectedStep(me, w, n, m, ch, queued);
    StreakMoves(me, m, ch, w, n, queued);
    DetourIsLower(m, ch, w, me.pc, published);
    var moved := BatchMoves(m.q, WorkerOp(w, me.pc).p, w, ch.extra, ch.extra, published);
    assert (d + moved)[k] == d[k];
    assert (d + moved)[..k] == d[..k];
  }

  /** The owner's own step: a pop brings the task one place forward, a detour appends behind it and spends a burst. */
  lemma OwnStay(m: Memory, w: nat, me: Worker, ch: Choice, n: nat, queued: set<nat>, published: nat, k: nat)
    requires Placed(m, w, me, published) && k < |m.q.deques[w]|
    ensures var (m', r) := Exec(m, WorkerOp(w, me.pc), ch);
            var me' := WorkerAfter(me, w, n, r, queued);
            var k' := if WorkerOp(w, me.pc).PopLocal? then k - 1 else k;
            && |m'.q.deques| == |m.q.deques|
            && At(m'.q.deques[w], k', m.q.deques[w][k])
            && (k' >= 0 ==>
                  Stay(m'.q.deques[w], me', k') + |me'.selected| <= Stay(m.q.deques[w], me, k) + |me.selected|)
  {
    ExecShape(m, WorkerOp(w, me.pc), ch);
    OnlyDetours(m.q, w, me, published);
    if WorkerOp(w, me.pc).PopLocal? { PopStay(m, w, me, ch, n, queued, published, k); }
    else if Exec(m, WorkerOp(w, me.pc), ch).1.Got? { DetourStay(m, w, me, ch, n, queued, published, k); }
    else { IdleStay(m, w, me, ch, n, queued, published, k); }
  }

  lemma StreakMoves(me: Worker, m: Memory, ch: Choice, w: nat, n: nat, queued: set<nat>)
    ensures var r := Exec(m, WorkerOp(w, me.pc), ch).1;
            var me' := WorkerAfter(me, w, n, r, queued);
            if r.Got? then me'.streak == Streak(me.streak, r.t) else me'.streak <= me.streak
  {
  }

  lemma StayStep(s: State, e: Event, s': State, w: nat, k: nat, t: Task) returns (k': int)
    requires InCustody(s) && Step(s, e, s') && w < |s.workers| && Placed(s.mem, w, s.workers[w], |s.tasks|)
    requires At(s.mem.q.deques[w], k, t)
    ensures w < |s'.workers| && w < |s'.mem.q.deques| && -1 <= k' && At(s'.mem.q.deques[w], k', t)
    ensures k' >= 0 ==>
              Stay(s'.mem.q.deques[w], s'.workers[w], k') + |s'.workers[w].selected|
              <= Stay(s.mem.q.deques[w], s.workers[w], k) + |s.workers[w].selected|
  {
    if e.Work? && e.w == w {
      OwnStay(s.mem, w, s.workers[w], e.ch, |s.workers|, QueuedIds(s.tasks), |s.tasks|, k);
      k' := if WorkerOp(w, s.workers[w].pc).PopLocal? then k - 1 else k;
    } else {
      OthersStep(s, e, s', w);
      if s'.mem.q.deques[w] == s.mem.q.deques[w] {
        k' := k;
      } else {
        FrontLeaves(s.mem.q.deques[w], k, t);
        if k > 0 { Forward(s.mem.q.deques[w], k); }
        k' := k - 1;
      }
    }
  }

  ghost predicate InNoInjector(q: Queues, t: Task) {
    t !in q.high && t !in q.normal && t !in q.low
  }

  lemma NotBroughtIn(m: Memory, op: Op, ch: Choice, w: nat, t: Task)
    requires w < |m.q.deques| && InNoInjector(m.q, t) && t !in m.q.deques[w]
    ensures |Exec(m, op, ch).0.q.deques| == |m.q.deques| && t !in Exec(m, op, ch).0.q.deques[w]
  {
    ExecTravel(m, op, ch);
  }

  /** A task in neither an injector nor this deque never enters this deque. */
  lemma StayOut(s: State, e: Event, s': State, w: nat, t: Task)
    requires InCustody(s) && Step(s, e, s') && w < |s.workers| && t.id < |s.tasks|
    requires InNoInjector(s.mem.q, t) && t !in s.mem.q.deques[w]
    ensures w < |s'.mem.q.deques| && t !in s'.mem.q.deques[w]
  {
    if e.Work? && e.w == w {
      NotBroughtIn(s.mem, WorkerOp(w, s.workers[w].pc), e.ch, w, t);
    } else {
      OthersStep(s, e, s', w);
    }
  }

  lemma NotInInjectors(q: Queues, w: nat, t: Task, published: nat)
    requires OrderOk(q, published) && w < |q.deques| && t in q.deques[w]
    ensures InNoInjector(q, t) && t.id < published
  {
    forall p ensures t !in Injector(q, p) {
      assert Before(q.deques[w], Injector(q, p));
    }
    assert t !in Injector(q, High) && t !in Injector(q, Normal) && t !in Injector(q, Low);
    assert Below(q.deques[w], published);
  }

  lemma {:induction false} StayRun(r: seq<State>, es: seq<Event>, i: nat, j: nat, w: nat, k: nat, t: Task)
    returns (k': int)
    requires Run(r, es) && Init(r[0]) && i <= j < |r| && w < |r[i].workers| == |r[i].mem.q.deques|
    requires At(r[i].mem.q.deques[w], k, t)
    ensures -1 <= k' && w < |r[j].workers| && w < |r[j].mem.q.deques| && At(r[j].mem.q.deques[w], k', t)
    ensures k' >= 0 ==>
              Stay(r[j].mem.q.deques[w], r[j].workers[w], k') + |r[j].workers[w].selected|
              <= Stay(r[i].mem.q.deques[w], r[i].workers[w], k) + |r[i].workers[w].selected|
    ensures InNoInjector(r[j].mem.q, t) && t.id < |r[j].tasks|
  {
    if i == j {
      k' := k;
      PlacedAt(r, es, i, w);
      NotInInjectors(r[i].mem.q, w, t, |r[i].tasks|);
    } else {
      var l := StayRun(r, es, i, j - 1, w, k, t);
      PlacedAt(r, es, j - 1, w);
      assert StepAt(r, es, j - 1);
      forall p ensures t !in Injector(r[j].mem.q, p) && t.id < |r[j].tasks| {
        assert t !in Injector(r[j - 1].mem.q, p);
        StayAway(r[j - 1], es[j - 1], r[j], t, p);
      }
      assert t !in Injector(r[j].mem.q, High) && t !in Injector(r[j].mem.q, Normal) && t !in Injector(r[j].mem.q, Low);
      if l >= 0 {
        k' := StayStep(r[j - 1], es[j - 1], r[j], w, l, t);
      } else {
        StayOut(r[j - 1], es[j - 1], r[j], w, t);
        SameWorkers(r, es, j - 1, j);
        k' := -1;
      }
    }
  }

  /**
   * Deque residence: take a task at index k of a worker's deque, with h HIGH tasks ahead of it, and let s be the
   * owner's streak. Once the owner has made k + 1 + floor((s + h) / 32) further selections the task has been popped or
   * stolen, from any reachable state and under any interleaving. That is never more than k + 2 + floor(k / 32).
   */
  lemma DequeResidence(r: seq<State>, es: seq<Event>, i: nat, j: nat, w: nat, k: nat)
    requires Run(r, es) && Init(r[0]) && i <= j < |r| && w < |r[i].workers| == |r[i].mem.q.deques|
    requires k < |r[i].mem.q.deques[w]|
    ensures w < |r[j].workers| && w < |r[j].mem.q.deques|
    ensures var d, me := r[i].mem.q.deques[w], r[i].workers[w];
            var bound := k + 1 + (me.streak + HighIn(d[..k])) / 32;
            && (|r[j].workers[w].selected| >= |me.selected| + bound ==> d[k] !in r[j].mem.q.deques[w])
            && bound <= k + 2 + k / 32
  {
    var d := r[i].mem.q.deques[w];
    var k' := StayRun(r, es, i, j, w, k, d[k]);
    PlacedAt(r, es, i, w);
    HighInBounds(d[..k]);
    if k' >= 0 { HighInBounds(r[j].mem.q.deques[w][..k']); }
  }
}
