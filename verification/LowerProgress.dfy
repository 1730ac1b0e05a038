/**
 * A flood of HIGH work cannot hold up NORMAL or LOW work for more than 33 selections per lower task ahead of it. Proved
 * for both injectors at once: NORMAL without any assumption, LOW while NORMAL is empty.
 */
module LowerProgress {
  import opened Sums
  import opened Queues
  import opened Memory
  import opened Programs
  import opened Machine
  import opened Custody
  import opened Searching
  import opened Ordering
  import opened Fairness
  import opened Surroundings

  function IsLower(t: Task): int {
    Indicator(t.priority != High)
  }

  /** The non-HIGH tasks in a deque. */
  function LowerIn(d: seq<Task>): int {
    Sum(d, IsLower)
  }

  /** About to look into LOW, in the fairness path or outside it. */
  predicate BeforeLow(pc: WorkerPc) {
    pc.Pop? && (pc.probe.FairLow? || pc.probe.TryLow?)
  }

  /**
   * Selections left before the worker looks into injector p again after a full burst. One that is about to look into
   * LOW while the task is in NORMAL may bring in a batch of lower tasks; one with peers still to try may steal a lower
   * task; either then begins a new burst.
   */
  function Grace(p: Priority, me: Worker, n: nat, batch: nat): int {
    if p == Normal && BeforeLow(me.pc) then 33 * (1 + batch)
    else if PeersAhead(me.pc, n) then 33
    else HIGH_BURST_LIMIT - me.streak
  }

  /**
   * Selections a worker can still make while the task at index k of injector p stays there: a full burst of HIGH for
   * each lower task ahead of it, plus the grace.
   */
  function Patience(p: Priority, d: seq<Task>, me: Worker, k: nat, n: nat, batch: nat): int {
    33 * (k + LowerIn(d)) + Grace(p, me, n, batch)
  }

  lemma LowerInBounds(d: seq<Task>)
    ensures LowerIn(d) >= 0
  {
    SumNonNegative(d, IsLower);
  }

  lemma ShrinkPatience(p: Priority, d: seq<Task>, d': seq<Task>, me: Worker, k: nat, k': nat, n: nat, batch: nat)
    requires Shrinks(d, d') && k' <= k
    ensures Patience(p, d', me, k', n, batch) <= Patience(p, d, me, k, n, batch)
  {
    if d' != d { SumTail(d, IsLower); }
  }

  // ---------- A step without a selection ----------

  /** What the bound asks of the other lower injector: nothing for NORMAL, and for LOW that NORMAL is empty. */
  predicate InReach(q: Queues, p: Priority) {
    p != High && Injector(q, p) != [] && (p == Low ==> q.normal == [])
  }

  /** With injector p non-empty a search without a selection does not get past it, so the grace does not grow. */
  lemma IdleGrace(p: Priority, me: Worker, m: Memory, ch: Choice, w: nat, n: nat, queued: set<nat>, batch: nat)
    requires InReach(m.q, p) && w < |m.q.deques| && StreakOk(me)
    ensures var r := Exec(m, WorkerOp(w, me.pc), ch).1;
            !r.Got? ==> Grace(p, WorkerAfter(me, w, n, r, queued), n, batch) <= Grace(p, me, n, batch)
  {
    if me.pc.Pop? {
      match me.pc.probe
      case FairNormal =>
      case FairLow =>
      case TryNormal =>
      case TryLow =>
      case Choose =>
      case Steal(_) =>
      case Missed(_) =>
      case _ =>
    }
  }

  // ---------- A step with a selection ----------

  /** How many lower tasks are ahead: those before index k in the injector and those in the deque. */
  function LowerAhead(q: Queues, w: nat, k: nat): int
    requires w < |q.deques|
  {
    k + LowerIn(q.deques[w])
  }

  predicate Fewer(q: Queues, q': Queues, w: nat, k: nat, k': nat, less: int) {
    w < |q.deques| == |q'.deques| && LowerAhead(q', w, k') <= LowerAhead(q, w, k) - less
  }

  /** The lower tasks among those a batch moves. */
  lemma BatchLower(q: Queues, p: Priority, w: nat, extra: nat, published: nat)
    requires OrderOk(q, published) && w < |q.deques| && Injector(q, p) != []
    ensures LowerIn(TakeBatch(q, p, w, extra).deques[w])
            == LowerIn(q.deques[w]) + if p == High then 0 else Extra(Injector(q, p), extra)
    ensures Injector(q, p)[0].priority == p
  {
    var moved := BatchMoves(q, p, w, extra, extra, published);
    assert moved == Injector(q, p)[1..1 + Extra(Injector(q, p), extra)] by {
      assert TakeBatch(q, p, w, extra).deques[w][|q.deques[w]|..] == moved;
    }
    SumConcat(q.deques[w], moved, IsLower);
    SumConstant(moved, IsLower, if p == High then 0 else 1);
  }

  /** A batch from the task's own injector moves it up by exactly as much as it adds to the deque, and one more. */
  lemma OwnFewer(q: Queues, p: Priority, w: nat, extra: nat, published: nat, k: nat, k': nat)
    requires OrderOk(q, published) && w < |q.deques| && p != High && Injector(q, p) != []
    requires Stays(Injector(q, p), Injector(TakeBatch(q, p, w, extra), p), k, k')
    ensures Fewer(q, TakeBatch(q, p, w, extra), w, k, k', 1) && Injector(q, p)[0].priority == p
  {
    BatchStays(q, p, w, extra, k, k');
    BatchLower(q, p, w, extra, published);
  }

  lemma FrontFewer(q: Queues, w: nat, k: nat)
    requires w < |q.deques| && q.deques[w] != []
    ensures Fewer(q, TakeFront(q, w), w, k, k, IsLower(q.deques[w][0]))
  {
    SumTail(q.deques[w], IsLower);
  }

  /** The arithmetic of one selection, where `more` is what it adds to the lower tasks ahead. */
  lemma PatienceSpent(streak: nat, t: Task, ahead: int, ahead': int, more: int, grace: int)
    requires streak <= HIGH_BURST_LIMIT && ahead' <= ahead + more
    requires grace == if more < 0 || (more == 0 && t.priority == High) then HIGH_BURST_LIMIT - streak
                      else 33 * (1 + more)
    ensures 33 * ahead' + HIGH_BURST_LIMIT - Streak(streak, t) <= 33 * ahead + grace - 1
  {
  }

  /** A batch from the task's own injector, or from HIGH, or from LOW while the task is in NORMAL. */
  lemma BatchPatience(m: Memory, w: nat, me: Worker, ch: Choice, published: nat, batch: nat,
                      p: Priority, k: nat, k': nat)
    requires Placed(m, w, me, published) && ch.extra <= batch && InReach(m.q, p)
    requires WorkerOp(w, me.pc).Batch? && Exec(m, WorkerOp(w, me.pc), ch).1.Got?
    requires Stays(Injector(m.q, p), Injector(Exec(m, WorkerOp(w, me.pc), ch).0.q, p), k, k')
    ensures var (m', r) := Exec(m, WorkerOp(w, me.pc), ch);
            && |m'.q.deques| == |m.q.deques|
            && 33 * LowerAhead(m'.q, w, k') + HIGH_BURST_LIMIT - Streak(me.streak, r.t)
               <= 33 * LowerAhead(m.q, w, k) + Grace(p, me, |m.q.deques|, batch) - 1
  {
    OwnBatch(me.pc, w);
    var op, n := WorkerOp(w, me.pc), |m.q.deques|;
    BatchTakes(m, op.p, w, ch);
    var q' := TakeBatch(m.q, op.p, w, ch.extra);
    BatchLower(m.q, op.p, w, ch.extra, published);
    var t := Injector(m.q, op.p)[0];
    if op.p == p {
      OwnFewer(m.q, p, w, ch.extra, published, k, k');
      BatchGrace(p, w, me, n, batch);
      PatienceSpent(me.streak, t, LowerAhead(m.q, w, k), LowerAhead(q', w, k'), -1, HIGH_BURST_LIMIT - me.streak);
    } else {
      OthersKept(m, op, ch, p);
      SamePlace(Injector(m.q, p), Injector(q', p), k, k');
      BatchGrace(p, w, me, n, batch);
      if op.p == High {
        PatienceSpent(me.streak, t, LowerAhead(m.q, w, k), LowerAhead(q', w, k), 0, HIGH_BURST_LIMIT - me.streak);
      } else {
        PatienceSpent(me.streak, t, LowerAhead(m.q, w, k), LowerAhead(q', w, k), batch, 33 * (1 + batch));
      }
    }
  }

  /** The grace of a worker about to look into an injector. */
  lemma BatchGrace(p: Priority, w: nat, me: Worker, n: nat, batch: nat)
    requires WorkerOp(w, me.pc).Batch? && p != High
    ensures var from := WorkerOp(w, me.pc).p;
            && (from == p || from == High ==> Grace(p, me, n, batch) == HIGH_BURST_LIMIT - me.streak)
            && (p == Normal && from == Low ==> Grace(p, me, n, batch) == 33 * (1 + batch))
  {
  }

  lemma PopPatience(m: Memory, w: nat, me: Worker, ch: Choice, batch: nat, p: Priority, k: nat, k': nat)
    requires w < |m.q.deques| && StreakOk(me) && WorkerOp(w, me.pc) == PopLocal(w)
    requires Exec(m, WorkerOp(w, me.pc), ch).1.Got?
    requires Stays(Injector(m.q, p), Injector(Exec(m, WorkerOp(w, me.pc), ch).0.q, p), k, k')
    ensures var (m', r) := Exec(m, WorkerOp(w, me.pc), ch);
            && |m'.q.deques| == |m.q.deques|
            && 33 * LowerAhead(m'.q, w, k') + HIGH_BURST_LIMIT - Streak(me.streak, r.t)
               <= 33 * LowerAhead(m.q, w, k) + Grace(p, me, |m.q.deques|, batch) - 1
  {
    PopTakesFront(m, w, ch);
    var q', t := TakeFront(m.q, w), m.q.deques[w][0];
    OthersKept(m, PopLocal(w), ch, p);
    SamePlace(Injector(m.q, p), Injector(q', p), k, k');
    FrontFewer(m.q, w, k);
    PatienceSpent(me.streak, t, LowerAhead(m.q, w, k), LowerAhead(q', w, k), -IsLower(t), HIGH_BURST_LIMIT - me.streak);
  }

  lemma StealPatience(m: Memory, w: nat, me: Worker, ch: Choice, batch: nat, p: Priority, k: nat, k': nat)
    requires w < |m.q.deques| && StreakOk(me) && WorkerOp(w, me.pc).StealFrom?
    requires WorkerOk(me.pc) && VictimsOk(me.pc, w, |m.q.deques|) && Exec(m, WorkerOp(w, me.pc), ch).1.Got?
    requires Stays(Injector(m.q, p), Injector(Exec(m, WorkerOp(w, me.pc), ch).0.q, p), k, k')
    ensures var (m', r) := Exec(m, WorkerOp(w, me.pc), ch);
            && |m'.q.deques| == |m.q.deques|
            && 33 * LowerAhead(m'.q, w, k') + HIGH_BURST_LIMIT - Streak(me.streak, r.t)
               <= 33 * LowerAhead(m.q, w, k) + Grace(p, me, |m.q.deques|, batch) - 1
  {
    VictimIsPeer(me.pc, w, |m.q.deques|);
    var v := me.pc.probe.victims[0];
    StealTakesFront(m, v, ch);
    OthersKept(m, StealFrom(v), ch, p);
    SamePlace(Injector(m.q, p), Injector(TakeFront(m.q, v), p), k, k');
  }

  // ---------- One step ----------

  lemma OwnPatience(m: Memory, w: nat, me: Worker, ch: Choice, queued: set<nat>, published: nat, batch: nat,
                    p: Priority, k: nat, k': nat)
    requires Placed(m, w, me, published) && ch.extra <= batch && InReach(m.q, p)
    requires Stays(Injector(m.q, p), Injector(Exec(m, WorkerOp(w, me.pc), ch).0.q, p), k, k')
    ensures var (m', r) := Exec(m, WorkerOp(w, me.pc), ch);
            var n := |m.q.deques|;
            var me' := WorkerAfter(me, w, n, r, queued);
            && |m'.q.deques| == n
            && Patience(p, m'.q.deques[w], me', k', n, batch) + |me'.selected|
               <= Patience(p, m.q.deques[w], me, k, n, batch) + |me.selected|
  {
    var op, n := WorkerOp(w, me.pc), |m.q.deques|;
    var (m', r) := Exec(m, op, ch);
    OwnBatch(me.pc, w);
    ExecShape(m, op, ch);
    SelectedStep(me, w, n, m, ch, queued);
    if r.Got? {
      Selection(me, w, n, r, queued);
      if op.Batch? { BatchPatience(m, w, me, ch, published, batch, p, k, k'); }
      else if op.PopLocal? { PopPatience(m, w, me, ch, batch, p, k, k'); }
      else { StealPatience(m, w, me, ch, batch, p, k, k'); }
    } else {
      IdleGrace(p, me, m, ch, w, n, queued, batch);
      SamePlace(Injector(m.q, p), Injector(m'.q, p), k, k');
    }
  }

  lemma PatienceWork(s: State, w: nat, ch: Choice, p: Priority, k: nat, k': nat)
    requires WellFormed(s) && Enabled(s, Work(w, ch)) && InReach(s.mem.q, p)
    requires Placed(s.mem, w, s.workers[w], |s.tasks|)
    requires Stays(Injector(s.mem.q, p), Injector(Next(s, Work(w, ch)).mem.q, p), k, k')
    ensures var s' := Next(s, Work(w, ch));
            var n, batch := |s.workers|, s.cfg.batch;
            && |s'.workers| == n && w < |s'.mem.q.deques| && s'.cfg == s.cfg
            && Patience(p, s'.mem.q.deques[w], s'.workers[w], k', n, batch) + |s'.workers[w].selected|
               <= Patience(p, s.mem.q.deques[w], s.workers[w], k, n, batch) + |s.workers[w].selected|
  {
    OwnPatience(s.mem, w, s.workers[w], ch, QueuedIds(s.tasks), |s.tasks|, s.cfg.batch, p, k, k');
  }

  lemma PatienceStep(s: State, e: Event, s': State, w: nat, p: Priority, k: nat) returns (k': nat)
    requires InCustody(s) && Step(s, e, s') && w < |s.workers| && Placed(s.mem, w, s.workers[w], |s.tasks|)
    requires InReach(s.mem.q, p) && k < |Injector(s.mem.q, p)| && Injector(s.mem.q, p)[k] in Injector(s'.mem.q, p)
    ensures w < |s'.workers| == |s.workers| && w < |s'.mem.q.deques| && s'.cfg == s.cfg
    ensures k' < |Injector(s'.mem.q, p)| && Injector(s'.mem.q, p)[k'] == Injector(s.mem.q, p)[k]
    ensures var n, batch := |s.workers|, s.cfg.batch;
            Patience(p, s'.mem.q.deques[w], s'.workers[w], k', n, batch) + |s'.workers[w].selected|
            <= Patience(p, s.mem.q.deques[w], s.workers[w], k, n, batch) + |s.workers[w].selected|
  {
    k' := StepStays(s, e, s', p, k);
    if e.Work? && e.w == w {
      PatienceWork(s, w, e.ch, p, k, k');
    } else {
      OthersStep(s, e, s', w);
      ShrinkPatience(p, s.mem.q.deques[w], s'.mem.q.deques[w], s.workers[w], k, k', |s.workers|, s.cfg.batch);
    }
  }

  // ---------- Along a run ----------

  lemma PatienceNext(r: seq<State>, es: seq<Event>, j: nat, w: nat, p: Priority, k: nat) returns (k': nat)
    requires Run(r, es) && Init(r[0]) && j < |es| && w < |r[j].workers| && w < |r[j].mem.q.deques|
    requires InReach(r[j].mem.q, p)
    requires k < |Injector(r[j].mem.q, p)| && Injector(r[j].mem.q, p)[k] in Injector(r[j + 1].mem.q, p)
    ensures w < |r[j + 1].workers| == |r[j].workers| && w < |r[j + 1].mem.q.deques| && r[j + 1].cfg == r[j].cfg
    ensures k' < |Injector(r[j + 1].mem.q, p)| && Injector(r[j + 1].mem.q, p)[k'] == Injector(r[j].mem.q, p)[k]
    ensures var n, batch := |r[j].workers|, r[j].cfg.batch;
            Patience(p, r[j + 1].mem.q.deques[w], r[j + 1].workers[w], k', n, batch) + |r[j + 1].workers[w].selected|
            <= Patience(p, r[j].mem.q.deques[w], r[j].workers[w], k, n, batch) + |r[j].workers[w].selected|
  {
    PlacedAt(r, es, j, w);
    assert StepAt(r, es, j);
    k' := PatienceStep(r[j], es[j], r[j + 1], w, p, k);
  }

  ghost predicate NormalEmpty(r: seq<State>, i: nat, j: nat) {
    j < |r| && forall l :: i <= l <= j ==> r[l].mem.q.normal == []
  }

  lemma {:induction false} PatienceRun(r: seq<State>, es: seq<Event>, i: nat, j: nat, w: nat, p: Priority, k: nat,
                                       t: Task)
    returns (k': nat)
    requires Run(r, es) && Init(r[0]) && i <= j < |r| && w < |r[i].workers| == |r[i].mem.q.deques| && p != High
    requires k < |Injector(r[i].mem.q, p)| && Injector(r[i].mem.q, p)[k] == t && t.id < |r[i].tasks|
    requires t in Injector(r[j].mem.q, p) && (p == Low ==> NormalEmpty(r, i, j))
    ensures w < |r[j].workers| == |r[i].workers| && w < |r[j].mem.q.deques| && r[j].cfg == r[i].cfg
    ensures k' < |Injector(r[j].mem.q, p)| && Injector(r[j].mem.q, p)[k'] == t
    ensures var n, batch := |r[i].workers|, r[i].cfg.batch;
            Patience(p, r[j].mem.q.deques[w], r[j].workers[w], k', n, batch) + |r[j].workers[w].selected|
            <= Patience(p, r[i].mem.q.deques[w], r[i].workers[w], k, n, batch) + |r[i].workers[w].selected|
  {
    if i == j {
      k' := k;
    } else {
      StayedThere(r, es, i, j, t, p);
      var l := PatienceRun(r, es, i, j - 1, w, p, k, t);
      assert InReach(r[j - 1].mem.q, p);
      k' := PatienceNext(r, es, j - 1, w, p, l);
    }
  }

  /** Both results at once. */
  lemma LowerIsServed(r: seq<State>, es: seq<Event>, i: nat, j: nat, w: nat, p: Priority, k: nat)
    requires Run(r, es) && Init(r[0]) && i <= j < |r| && w < |r[i].workers| && p != High
    requires k < |Injector(r[i].mem.q, p)| && (p == Low ==> NormalEmpty(r, i, j))
    ensures w < |r[j].workers| && w < |r[i].mem.q.deques| && r[i].workers[w].streak <= HIGH_BURST_LIMIT
    ensures |r[j].workers[w].selected|
            > |r[i].workers[w].selected|
              + Patience(p, r[i].mem.q.deques[w], r[i].workers[w], k, |r[i].workers|, r[i].cfg.batch) ==>
              Injector(r[i].mem.q, p)[k] !in Injector(r[j].mem.q, p)
  {
    PlacedAt(r, es, i, w);
    SameWorkers(r, es, i, j);
    var t := Injector(r[i].mem.q, p)[k];
    assert t.id < |r[i].tasks| by {
      assert InjectorOk(Injector(r[i].mem.q, p), p, |r[i].tasks|);
      assert t in Injector(r[i].mem.q, p);
    }
    if t in Injector(r[j].mem.q, p) {
      var k' := PatienceRun(r, es, i, j, w, p, k, t);
      PlacedAt(r, es, j, w);
      LowerInBounds(r[j].mem.q.deques[w]);
      assert Patience(p, r[j].mem.q.deques[w], r[j].workers[w], k', |r[i].workers|, r[i].cfg.batch) >= 0;
    }
  }

  /**
   * NORMAL progress: a NORMAL task with p tasks ahead of it in the NORMAL injector has left that injector (selected by
   * somebody, or moved to a deque) once a worker whose deque holds L non-HIGH tasks has made 33 * (p + L + 1)
   * selections, less its streak, whatever HIGH, NORMAL and LOW work keeps arriving. A worker that has peers still to
   * try in its current search may need one selection more, and one about to look into LOW 33 * B + 1, without the
   * credit for its streak.
   */
  lemma NormalIsServed(r: seq<State>, es: seq<Event>, i: nat, j: nat, w: nat, p: nat)
    requires Run(r, es) && Init(r[0]) && i <= j < |r| && w < |r[i].workers| && p < |r[i].mem.q.normal|
    ensures w < |r[j].workers| && w < |r[i].mem.q.deques|
    ensures var me, lower := r[i].workers[w], LowerIn(r[i].mem.q.deques[w]);
            var late: int := if BeforeLow(me.pc) then 33 * r[i].cfg.batch + 1
                             else if PeersAhead(me.pc, |r[i].workers|) then 1
                             else -(me.streak as int);
            |r[j].workers[w].selected| >= |me.selected| + 33 * (p + lower + 1) + late ==>
              r[i].mem.q.normal[p] !in r[j].mem.q.normal
  {
    LowerIsServed(r, es, i, j, w, Normal, p);
  }

  /**
   * LOW progress: while the NORMAL injector is empty, a LOW task with p tasks ahead of it in the LOW injector has left
   * that injector once a worker whose deque holds L non-HIGH tasks has made 33 * (p + L + 1) selections, less its
   * streak, whatever HIGH and LOW work keeps arriving. A worker that has peers still to try in its current search may
   * need one selection more, and then its streak does not count.
   */
  lemma LowIsServed(r: seq<State>, es: seq<Event>, i: nat, j: nat, w: nat, p: nat)
    requires Run(r, es) && Init(r[0]) && i <= j < |r| && w < |r[i].workers| && p < |r[i].mem.q.low|
    requires NormalEmpty(r, i, j)
    ensures w < |r[j].workers| && w < |r[i].mem.q.deques|
    ensures var me, lower := r[i].workers[w], LowerIn(r[i].mem.q.deques[w]);
            var late: int := if PeersAhead(me.pc, |r[i].workers|) then 1 else -(me.streak as int);
            |r[j].workers[w].selected| >= |me.selected| + 33 * (p + lower + 1) + late ==>
              r[i].mem.q.low[p] !in r[j].mem.q.low
  {
    LowerIsServed(r, es, i, j, w, Low, p);
  }
}
