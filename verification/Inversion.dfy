/**
 * Bounded priority inversion, proved with a potential that no step of another thread can raise and that every selection
 * of the worker in question lowers.
 */
module Inversion {
  import opened Sums
  import opened Queues
  import opened Memory
  import opened Programs
  import opened Machine
  import opened Custody
  import opened Searching
  import opened Ordering
  import opened Fairness
  import opened Surroundings

  // ---------- Arithmetic ----------

  /** What k detours can bring in with batches of up to `batch` tasks beyond the head: k * (1 + B). */
  function Batches(k: nat, batch: nat): nat {
    if k == 0 then 0 else Batches(k - 1, batch) + 1 + batch
  }

  lemma {:induction false} BatchesGrow(a: nat, b: nat, batch: nat)
    requires a <= b
    ensures Batches(a, batch) <= Batches(b, batch)
    ensures a < b ==> Batches(a, batch) + 1 + batch <= Batches(b, batch)
  {
    if a < b { BatchesGrow(a, b - 1, batch); }
  }

  lemma {:induction false} BatchesProduct(k: nat, batch: nat)
    ensures Batches(k, batch) == k * (1 + batch)
  {
    if k > 0 { BatchesProduct(k - 1, batch); }
  }

  /** How many bursts x HIGH selections fill. */
  function Bursts(x: int): nat {
    if x < 0 then 0 else x / HIGH_BURST_LIMIT
  }

  /** One HIGH selection short of a full burst. */
  predicate Full(x: int) {
    x % HIGH_BURST_LIMIT == HIGH_BURST_LIMIT - 1
  }

  lemma BurstsGrow(x: int, y: int)
    requires 0 <= x <= y
    ensures Bursts(x) <= Bursts(y)
    ensures Full(x) && !Full(y) ==> Bursts(x) < Bursts(y)
    ensures Bursts(x + HIGH_BURST_LIMIT) == Bursts(x) + 1
    ensures Bursts(x + 1) == Bursts(x) + if Full(x) then 1 else 0
  {
  }

  /** Detours on the way of x HIGH selections, with what they bring in. */
  function Cost(x: int, batch: nat): nat {
    Batches(Bursts(x), batch)
  }

  lemma CostGrows(x: int, y: int, batch: nat)
    requires 0 <= x <= y
    ensures Cost(x, batch) <= Cost(y, batch)
    ensures Full(x) && !Full(y) ==> Cost(x, batch) + 1 + batch <= Cost(y, batch)
  {
    BurstsGrow(x, y);
    BatchesGrow(Bursts(x), Bursts(y), batch);
  }

  lemma CostOfBurst(x: int, batch: nat)
    requires 0 <= x
    ensures Cost(x + HIGH_BURST_LIMIT, batch) == Cost(x, batch) + 1 + batch
    ensures Cost(x + 1, batch) == Cost(x, batch) + if Full(x) then 1 + batch else 0
  {
    BurstsGrow(x, x);
  }

  // ---------- The potential ----------

  /** Past the look into the HIGH injector in the current search, with somewhere still to look. */
  predicate PastHigh(pc: WorkerPc, n: nat) {
    pc.Pop? && (pc.probe.TryNormal? || pc.probe.TryLow? || PeersAhead(pc, n))
  }

  /**
   * What a search that has passed the HIGH injector may still cost with p HIGH tasks ahead: one batch of lower tasks,
   * or one stolen task, which may be HIGH and make the HIGH tasks ahead fill one more burst.
   */
  function Surcharge(me: Worker, n: nat, batch: nat, p: nat): nat {
    if !PastHigh(me.pc, n) then 0
    else if PeersAhead(me.pc, n) then if Full(me.streak + p) then 2 + batch else 1
    else if n > 1 && Full(me.streak + p) then 2 + batch else 1 + batch
  }

  /** k + p + floor((s + h + p) / 32) * (1 + B), plus the surcharge. */
  function Inversion(d: seq<Task>, me: Worker, n: nat, batch: nat, p: nat): int {
    |d| + p + Cost(me.streak + HighIn(d) + p, batch) + Surcharge(me, n, batch, p)
  }

  /** Nothing in the deque of a worker past the HIGH injector. */
  lemma LateDequeEmpty(q: Queues, w: nat, me: Worker, published: nat, n: nat)
    requires w < |q.deques| && SearchOk(q, w, me, published)
    ensures PastHigh(me.pc, n) || (me.pc.Pop? && me.pc.probe.TryHigh?) ==> q.deques[w] == []
  {
  }

  lemma ShrinkInversion(d: seq<Task>, d': seq<Task>, me: Worker, n: nat, batch: nat, p: nat)
    requires Shrinks(d, d')
    ensures Inversion(d', me, n, batch, p) <= Inversion(d, me, n, batch, p)
  {
    if d' != d {
      SumTail(d, IsHigh);
      HighInBounds(d');
      CostGrows(me.streak + HighIn(d') + p, me.streak + HighIn(d) + p, batch);
    }
  }

  /** A task further forward is reached no later. */
  lemma ForwardInversion(d: seq<Task>, me: Worker, n: nat, batch: nat, p: nat, p': nat)
    requires p' <= p && (PastHigh(me.pc, n) ==> d == [])
    ensures Inversion(d, me, n, batch, p') <= Inversion(d, me, n, batch, p)
  {
    HighInBounds(d);
    CostGrows(me.streak + HighIn(d) + p', me.streak + HighIn(d) + p, batch);
  }

  /** The worker takes the front of its deque. */
  lemma LocalInversion(d: seq<Task>, me: Worker, me': Worker, n: nat, batch: nat, p: nat)
    requires d != [] && me'.streak == Streak(me.streak, d[0]) && !PastHigh(me'.pc, n)
    ensures Inversion(d[1..], me', n, batch, p) <= Inversion(d, me, n, batch, p) - 1
  {
    SumTail(d, IsHigh);
    HighInBounds(d[1..]);
    CostGrows(me'.streak + HighIn(d[1..]) + p, me.streak + HighIn(d) + p, batch);
  }

  /** The worker comes back from a detour with at most `batch` more tasks, none of them HIGH. */
  lemma DetourInversion(d: seq<Task>, moved: seq<Task>, me: Worker, me': Worker, n: nat, batch: nat, p: nat)
    requires HighIn(moved) == 0 && |moved| <= batch && me.streak == HIGH_BURST_LIMIT && me'.streak == 0
    requires !PastHigh(me'.pc, n)
    ensures Inversion(d + moved, me', n, batch, p) <= Inversion(d, me, n, batch, p) - 1
  {
    SumConcat(d, moved, IsHigh);
    HighInBounds(d);
    CostOfBurst(HighIn(d) + p, batch);
  }

  /** A lower batch taken past the HIGH injector, with the own deque empty, is paid from the surcharge. */
  lemma LateBatch(moved: seq<Task>, me: Worker, me': Worker, n: nat, batch: nat, p: nat)
    requires me.pc.Pop? && (me.pc.probe.TryNormal? || me.pc.probe.TryLow?) && !PastHigh(me'.pc, n)
    requires |moved| <= batch && HighIn(moved) == 0 && me'.streak == 0
    ensures Inversion(moved, me', n, batch, p) <= Inversion([], me, n, batch, p) - 1
  {
    assert HighIn([]) == 0;
    CostGrows(p, me.streak + p, batch);
  }

  /** So is a stolen task, which may fill a burst. */
  lemma LateSteal(me: Worker, me': Worker, t: Task, n: nat, batch: nat, p: nat)
    requires PeersAhead(me.pc, n) && !PastHigh(me'.pc, n) && me'.streak == Streak(me.streak, t)
    ensures Inversion([], me', n, batch, p) <= Inversion([], me, n, batch, p) - 1
  {
    assert HighIn([]) == 0;
    CostOfBurst(me.streak + p, batch);
    CostGrows(me'.streak + p, me.streak + p + 1, batch);
  }

  /** A HIGH batch brings the task forward by one more than it adds to the empty deque. */
  lemma HighBatchInversion(moved: seq<Task>, me: Worker, me': Worker, n: nat, batch: nat, p: nat, p': nat)
    requires HighIn(moved) == |moved| && p == p' + 1 + |moved| && me'.streak == me.streak + 1 && !PastHigh(me'.pc, n)
    ensures Inversion(moved, me', n, batch, p') <= Inversion([], me, n, batch, p) - 1
  {
    assert HighIn([]) == 0;
  }

  // ---------- One step ----------

  /** One step of the worker itself, while the task at index p of the HIGH injector stays there. */
  lemma OwnInversion(m: Memory, w: nat, me: Worker, ch: Choice, n: nat, queued: set<nat>, published: nat, batch: nat,
                     p: nat, p': nat)
    requires Placed(m, w, me, published) && ch.extra <= batch
    requires Stays(m.q.high, Exec(m, WorkerOp(w, me.pc), ch).0.q.high, p, p')
    ensures var (m', r) := Exec(m, WorkerOp(w, me.pc), ch);
            var me' := WorkerAfter(me, w, n, r, queued);
            && |m'.q.deques| == |m.q.deques|
            && Inversion(m'.q.deques[w], me', n, batch, p') + |me'.selected|
               <= Inversion(m.q.deques[w], me, n, batch, p) + |me.selected|
  {
    var op := WorkerOp(w, me.pc);
    var r := Exec(m, op, ch).1;
    ExecShape(m, op, ch);
    OwnBatch(me.pc, w);
    SelectedStep(me, w, n, m, ch, queued);
    if op == Batch(High, w) && r.Got? {
      TakeHighInversion(m, w, me, ch, n, queued, published, batch, p, p');
    } else {
      if !r.Got? { IdleInversion(m, w, me, ch, n, queued, batch, p, p'); }
      else { GotInversion(m, w, me, ch, n, queued, published, batch, p, p'); }
    }
  }

  /** Without a selection nothing moves, the streak can only fall, and HIGH is not found empty. */
  lemma IdleInversion(m: Memory, w: nat, me: Worker, ch: Choice, n: nat, queued: set<nat>, batch: nat, p: nat, p': nat)
    requires w < |m.q.deques| && m.q.high != [] && !Exec(m, WorkerOp(w, me.pc), ch).1.Got?
    requires Stays(m.q.high, Exec(m, WorkerOp(w, me.pc), ch).0.q.high, p, p')
    ensures var (m', r) := Exec(m, WorkerOp(w, me.pc), ch);
            var me' := WorkerAfter(me, w, n, r, queued);
            && |m'.q.deques| == |m.q.deques|
            && Inversion(m'.q.deques[w], me', n, batch, p') <= Inversion(m.q.deques[w], me, n, batch, p)
  {
    var (m', r) := Exec(m, WorkerOp(w, me.pc), ch);
    var me' := WorkerAfter(me, w, n, r, queued);
    ExecShape(m, WorkerOp(w, me.pc), ch);
    OwnBatch(me.pc, w);
    SamePlace(m.q.high, m'.q.high, p, p');
    StillBefore(me, w, n, m, ch, queued, batch, p);
    HighInBounds(m.q.deques[w]);
    CostGrows(me'.streak + HighIn(m.q.deques[w]) + p, me.streak + HighIn(m.q.deques[w]) + p, batch);
  }

  lemma StillBefore(me: Worker, w: nat, n: nat, m: Memory, ch: Choice, queued: set<nat>, batch: nat, p: nat)
    requires m.q.high != [] && w < |m.q.deques|
    ensures var r := Exec(m, WorkerOp(w, me.pc), ch).1;
            var me' := WorkerAfter(me, w, n, r, queued);
            !r.Got? ==> me'.streak <= me.streak && Surcharge(me', n, batch, p) <= Surcharge(me, n, batch, p)
  {
    if me.pc.Pop? {
      match me.pc.probe
      case FairLow =>
      case TryHigh =>
      case TryNormal =>
      case TryLow =>
      case Choose =>
      case Steal(_) =>
      case Missed(_) =>
      case _ =>
    }
  }

  lemma TakeHighInversion(m: Memory, w: nat, me: Worker, ch: Choice, n: nat, queued: set<nat>, published: nat,
                          batch: nat, p: nat, p': nat)
    requires Placed(m, w, me, published)
    requires WorkerOp(w, me.pc) == Batch(High, w) && Exec(m, WorkerOp(w, me.pc), ch).1.Got?
    requires Stays(m.q.high, Exec(m, WorkerOp(w, me.pc), ch).0.q.high, p, p')
    ensures var (m', r) := Exec(m, WorkerOp(w, me.pc), ch);
            var me' := WorkerAfter(me, w, n, r, queued);
            && |m'.q.deques| == |m.q.deques|
            && Inversion(m'.q.deques[w], me', n, batch, p') <= Inversion(m.q.deques[w], me, n, batch, p) - 1
  {
    var r := Exec(m, WorkerOp(w, me.pc), ch).1;
    LateDequeEmpty(m.q, w, me, published, n);
    BatchTakes(m, High, w, ch);
    BatchStays(m.q, High, w, ch.extra, p, p');
    Selection(me, w, n, Exec(m, WorkerOp(w, me.pc), ch).1, queued);
    var moved := BatchMoves(m.q, High, w, ch.extra, ch.extra, published);
    SumConstant(moved, IsHigh, 1);
    assert [] + moved == moved;
    HighBatchInversion(moved, me, WorkerAfter(me, w, n, r, queued), n, batch, p, p');
  }

  lemma GotInversion(m: Memory, w: nat, me: Worker, ch: Choice, n: nat, queued: set<nat>, published: nat, batch: nat,
                     p: nat, p': nat)
    requires Placed(m, w, me, published) && ch.extra <= batch
    requires WorkerOp(w, me.pc) != Batch(High, w) && Exec(m, WorkerOp(w, me.pc), ch).1.Got?
    requires Stays(m.q.high, Exec(m, WorkerOp(w, me.pc), ch).0.q.high, p, p')
    ensures var (m', r) := Exec(m, WorkerOp(w, me.pc), ch);
            var me' := WorkerAfter(me, w, n, r, queued);
            && |m'.q.deques| == |m.q.deques|
            && Inversion(m'.q.deques[w], me', n, batch, p') <= Inversion(m.q.deques[w], me, n, batch, p) - 1
  {
    var op := WorkerOp(w, me.pc);
    ExecShape(m, op, ch);
    OwnBatch(me.pc, w);
    OthersKept(m, op, ch, High);
    SamePlace(m.q.high, Exec(m, op, ch).0.q.high, p, p');
    if op.PopLocal? { PopInversion(m, w, me, ch, n, queued, batch, p); }
    else if op.StealFrom? { StealInversion(m, w, me, ch, n, queued, published, batch, p); }
    else { LowerInversion(m, w, me, ch, n, queued, published, batch, p); }
  }

  lemma PopInversion(m: Memory, w: nat, me: Worker, ch: Choice, n: nat, queued: set<nat>, batch: nat, p: nat)
    requires w < |m.q.deques| && WorkerOp(w, me.pc) == PopLocal(w) && Exec(m, WorkerOp(w, me.pc), ch).1.Got?
    ensures var (m', r) := Exec(m, WorkerOp(w, me.pc), ch);
            var me' := WorkerAfter(me, w, n, r, queued);
            && |m'.q.deques| == |m.q.deques|
            && Inversion(m'.q.deques[w], me', n, batch, p) <= Inversion(m.q.deques[w], me, n, batch, p) - 1
  {
    Selection(me, w, n, Exec(m, WorkerOp(w, me.pc), ch).1, queued);
    PopTakesFront(m, w, ch);
    LocalInversion(m.q.deques[w], me, WorkerAfter(me, w, n, Exec(m, WorkerOp(w, me.pc), ch).1, queued), n, batch, p);
  }

  lemma StealInversion(m: Memory, w: nat, me: Worker, ch: Choice, n: nat, queued: set<nat>, published: nat, batch: nat,
                       p: nat)
    requires Placed(m, w, me, published) && WorkerOp(w, me.pc).StealFrom? && Exec(m, WorkerOp(w, me.pc), ch).1.Got?
    ensures var (m', r) := Exec(m, WorkerOp(w, me.pc), ch);
            var me' := WorkerAfter(me, w, n, r, queued);
            && |m'.q.deques| == |m.q.deques|
            && Inversion(m'.q.deques[w], me', n, batch, p) <= Inversion(m.q.deques[w], me, n, batch, p) - 1
  {
    Selection(me, w, n, Exec(m, WorkerOp(w, me.pc), ch).1, queued);
    VictimIsPeer(me.pc, w, |m.q.deques|);
    StealTakesFront(m, me.pc.probe.victims[0], ch);
    LateDequeEmpty(m.q, w, me, published, n);
    var r := Exec(m, WorkerOp(w, me.pc), ch).1;
    LateSteal(me, WorkerAfter(me, w, n, r, queued), r.t, n, batch, p);
  }

  lemma LowerInversion(m: Memory, w: nat, me: Worker, ch: Choice, n: nat, queued: set<nat>, published: nat, batch: nat,
                       p: nat)
    requires Placed(m, w, me, published) && ch.extra <= batch && Exec(m, WorkerOp(w, me.pc), ch).1.Got?
    requires WorkerOp(w, me.pc) == Batch(Normal, w) || WorkerOp(w, me.pc) == Batch(Low, w)
    ensures var (m', r) := Exec(m, WorkerOp(w, me.pc), ch);
            var me' := WorkerAfter(me, w, n, r, queued);
            && |m'.q.deques| == |m.q.deques|
            && Inversion(m'.q.deques[w], me', n, batch, p) <= Inversion(m.q.deques[w], me, n, batch, p) - 1
  {
    var op := WorkerOp(w, me.pc);
    BatchTakes(m, op.p, w, ch);
    var r := Got(Injector(m.q, op.p)[0]);
    Selection(me, w, n, r, queued);
    var moved := BatchMoves(m.q, op.p, w, ch.extra, batch, published);
    SumConstant(moved, IsHigh, 0);
    LateDequeEmpty(m.q, w, me, published, n);
    LowerBatch(m.q.deques[w], moved, me, WorkerAfter(me, w, n, r, queued), n, batch, p);
  }

  /** A lower batch is taken on a detour, or past the HIGH injector with an empty deque. */
  lemma LowerBatch(d: seq<Task>, moved: seq<Task>, me: Worker, me': Worker, n: nat, batch: nat, p: nat)
    requires HighIn(moved) == 0 && |moved| <= batch && me'.streak == 0 && !me'.pc.Pop? && StreakOk(me)
    requires InDetour(me.pc) || (me.pc.Pop? && (me.pc.probe.TryNormal? || me.pc.probe.TryLow?) && d == [])
    ensures Inversion(d + moved, me', n, batch, p) <= Inversion(d, me, n, batch, p) - 1
  {
    if InDetour(me.pc) {
      DetourInversion(d, moved, me, me', n, batch, p);
    } else {
      assert [] + moved == moved;
      LateBatch(moved, me, me', n, batch, p);
    }
  }

  lemma InversionStep(s: State, e: Event, s': State, w: nat, p: nat) returns (p': nat)
    requires InCustody(s) && Step(s, e, s') && w < |s.workers| && Placed(s.mem, w, s.workers[w], |s.tasks|)
    requires p < |s.mem.q.high| && s.mem.q.high[p] in s'.mem.q.high
    ensures w < |s'.workers| == |s.workers| && w < |s'.mem.q.deques| && s'.cfg == s.cfg
    ensures p' < |s'.mem.q.high| && s'.mem.q.high[p'] == s.mem.q.high[p]
    ensures var n, batch := |s.workers|, s.cfg.batch;
            Inversion(s'.mem.q.deques[w], s'.workers[w], n, batch, p') + |s'.workers[w].selected|
            <= Inversion(s.mem.q.deques[w], s.workers[w], n, batch, p) + |s.workers[w].selected|
  {
    p' := StepStays(s, e, s', High, p);
    if e.Work? && e.w == w {
      InversionWork(s, w, e.ch, p, p');
    } else {
      OthersStep(s, e, s', w);
      LateDequeEmpty(s.mem.q, w, s.workers[w], |s.tasks|, |s.workers|);
      var n, batch := |s.workers|, s.cfg.batch;
      ForwardInversion(s.mem.q.deques[w], s.workers[w], n, batch, p, p');
      ShrinkInversion(s.mem.q.deques[w], s'.mem.q.deques[w], s.workers[w], n, batch, p');
    }
  }

  lemma InversionWork(s: State, w: nat, ch: Choice, p: nat, p': nat)
    requires WellFormed(s) && Enabled(s, Work(w, ch)) && Placed(s.mem, w, s.workers[w], |s.tasks|)
    requires Stays(s.mem.q.high, Next(s, Work(w, ch)).mem.q.high, p, p')
    ensures var s' := Next(s, Work(w, ch));
            var n, batch := |s.workers|, s.cfg.batch;
            && |s'.workers| == |s.workers| && w < |s'.mem.q.deques| && s'.cfg == s.cfg
            && Inversion(s'.mem.q.deques[w], s'.workers[w], n, batch, p') + |s'.workers[w].selected|
               <= Inversion(s.mem.q.deques[w], s.workers[w], n, batch, p) + |s.workers[w].selected|
  {
    OwnInversion(s.mem, w, s.workers[w], ch, |s.workers|, QueuedIds(s.tasks), |s.tasks|, s.cfg.batch, p, p');
  }

  // ---------- Along a run ----------

  lemma InversionNext(r: seq<State>, es: seq<Event>, j: nat, w: nat, p: nat) returns (p': nat)
    requires Run(r, es) && Init(r[0]) && j < |es| && w < |r[j].workers| && w < |r[j].mem.q.deques|
    requires p < |r[j].mem.q.high| && r[j].mem.q.high[p] in r[j + 1].mem.q.high
    ensures w < |r[j + 1].workers| == |r[j].workers| && w < |r[j + 1].mem.q.deques| && r[j + 1].cfg == r[j].cfg
    ensures p' < |r[j + 1].mem.q.high| && r[j + 1].mem.q.high[p'] == r[j].mem.q.high[p]
    ensures var n, batch := |r[j].workers|, r[j].cfg.batch;
            Inversion(r[j + 1].mem.q.deques[w], r[j + 1].workers[w], n, batch, p') + |r[j + 1].workers[w].selected|
            <= Inversion(r[j].mem.q.deques[w], r[j].workers[w], n, batch, p) + |r[j].workers[w].selected|
  {
    PlacedAt(r, es, j, w);
    assert StepAt(r, es, j);
    p' := InversionStep(r[j], es[j], r[j + 1], w, p);
  }

  lemma {:induction false} InversionRun(r: seq<State>, es: seq<Event>, i: nat, j: nat, w: nat, p: nat, t: Task)
    returns (p': nat)
    requires Run(r, es) && Init(r[0]) && i <= j < |r| && w < |r[i].workers| == |r[i].mem.q.deques|
    requires p < |r[i].mem.q.high| && r[i].mem.q.high[p] == t && t.id < |r[i].tasks| && t in r[j].mem.q.high
    ensures w < |r[j].workers| == |r[i].workers| && w < |r[j].mem.q.deques| && r[j].cfg == r[i].cfg
    ensures p' < |r[j].mem.q.high| && r[j].mem.q.high[p'] == t
    ensures var n, batch := |r[i].workers|, r[i].cfg.batch;
            Inversion(r[j].mem.q.deques[w], r[j].workers[w], n, batch, p') + |r[j].workers[w].selected|
            <= Inversion(r[i].mem.q.deques[w], r[i].workers[w], n, batch, p) + |r[i].workers[w].selected|
  {
    if i == j {
      p' := p;
    } else {
      StayedThere(r, es, i, j, t, High);
      var l := InversionRun(r, es, i, j - 1, w, p, t);
      p' := InversionNext(r, es, j - 1, w, l);
    }
  }

  /**
   * Bounded priority inversion: take the task at index p of the HIGH injector and any worker. Let k be the length of
   * the worker's deque, h the HIGH tasks in it, s the worker's streak and B the batch bound. Once the worker has made
   * k + p + floor((s + h + p) / 32) * (1 + B) + 1 further selections, the task has left the HIGH injector, whatever the
   * other threads do. Only a worker whose search is past the HIGH injector and has somewhere still to look may need
   * more: one among its peers one selection, one before NORMAL or LOW 1 + B, and with peers, where one more HIGH task
   * fills a burst, either of them 2 + B.
   */
  lemma BoundedInversion(r: seq<State>, es: seq<Event>, i: nat, j: nat, w: nat, p: nat)
    requires Run(r, es) && Init(r[0]) && i <= j < |r| && w < |r[i].workers| && p < |r[i].mem.q.high|
    ensures w < |r[i].mem.q.deques| && w < |r[j].workers|
    ensures var d, me := r[i].mem.q.deques[w], r[i].workers[w];
            var bound := |d| + p + (me.streak + HighIn(d) + p) / 32 * (1 + r[i].cfg.batch) + 1
                         + Surcharge(me, |r[i].workers|, r[i].cfg.batch, p);
            |r[j].workers[w].selected| >= |me.selected| + bound ==> r[i].mem.q.high[p] !in r[j].mem.q.high
  {
    PlacedAt(r, es, i, w);
    SameWorkers(r, es, i, j);
    var t := r[i].mem.q.high[p];
    assert t.id < |r[i].tasks| by {
      assert InjectorOk(Injector(r[i].mem.q, High), High, |r[i].tasks|);
      assert t in r[i].mem.q.high;
    }
    BatchesProduct(Bursts(r[i].workers[w].streak + HighIn(r[i].mem.q.deques[w]) + p), r[i].cfg.batch);
    HighInBounds(r[i].mem.q.deques[w]);
    if t in r[j].mem.q.high {
      var p' := InversionRun(r, es, i, j, w, p, t);
      InversionPositive(r[j].mem.q.deques[w], r[j].workers[w], |r[i].workers|, r[i].cfg.batch, p');
    }
  }

  lemma InversionPositive(d: seq<Task>, me: Worker, n: nat, batch: nat, p: nat)
    ensures Inversion(d, me, n, batch, p) >= 0
  {
    HighInBounds(d);
  }
}
