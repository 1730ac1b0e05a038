/** The HIGH burst limit: how long a worker can go on selecting HIGH tasks, and what its detours cost. */
module Fairness {
  import opened Sums
  import opened Queues
  import opened Memory
  import opened Programs
  import opened Machine
  import opened Custody
  import opened Ledger
  import opened Ordering

  function IsHigh(t: Task): int {
    Indicator(t.priority == High)
  }

  predicate Due(pc: WorkerPc) {
    pc.Pop? && (pc.probe.Yield? || pc.probe.FairNormal? || pc.probe.FairLow?)
  }

  /** Anywhere from the look into the own deque to the last victim. */
  predicate Plain(pc: WorkerPc) {
    pc.Pop? && !pc.probe.Enter? && !Due(pc)
  }

  predicate StreakOk(me: Worker) {
    && me.streak <= HIGH_BURST_LIMIT
    && (Due(me.pc) ==> me.streak == HIGH_BURST_LIMIT)
    && (Plain(me.pc) ==> me.streak < HIGH_BURST_LIMIT)
  }

  /** 32 for each detour that was neither cut short by `Retry` nor is still under way, and the standing streak. */
  function Account(me: Worker): int {
    HIGH_BURST_LIMIT * (me.detours - me.fairRetries - Indicator(InDetour(me.pc))) + me.streak
  }

  /** Every HIGH task selected went into a decided detour, into the standing streak, or into a streak broken off. */
  ghost predicate DetoursPaid(me: Worker) {
    Sum(me.selected, IsHigh) == Account(me) + me.broken
  }

  ghost predicate FairOk(me: Worker) {
    StreakOk(me) && DetoursPaid(me)
  }

  // ---------- One step of a worker ----------

  /** What the fairness path answers with is never HIGH. */
  lemma DetourIsLower(m: Memory, ch: Choice, w: nat, pc: WorkerPc, published: nat)
    requires OrderOk(m.q, published) && InDetour(pc)
    ensures var r := Exec(m, WorkerOp(w, pc), ch).1; r.Got? ==> r.t.priority != High
  {
    var p := WorkerOp(w, pc).p;
    assert InjectorOk(Injector(m.q, p), p, published);
  }

  lemma StreakStep(me: Worker, m: Memory, ch: Choice, w: nat, n: nat, queued: set<nat>, published: nat)
    requires StreakOk(me) && OrderOk(m.q, published)
    ensures StreakOk(WorkerAfter(me, w, n, Exec(m, WorkerOp(w, me.pc), ch).1, queued))
  {
    if InDetour(me.pc) { DetourIsLower(m, ch, w, me.pc, published); }
  }

  /** How one step moves the two sides of the detour account. */
  lemma DetourAccount(me: Worker, m: Memory, ch: Choice, w: nat, n: nat, queued: set<nat>, published: nat)
    requires StreakOk(me) && OrderOk(m.q, published)
    ensures var r := Exec(m, WorkerOp(w, me.pc), ch).1;
            var me' := WorkerAfter(me, w, n, r, queued);
            Account(me') + me'.broken == Account(me) + me.broken + (if r.Got? then IsHigh(r.t) else 0)
  {
    if InDetour(me.pc) { DetourIsLower(m, ch, w, me.pc, published); }
    if me.pc.Pop? {
      match me.pc.probe
      case Steal(_) =>
      case Choose =>
      case Missed(_) =>
      case _ =>
    }
  }

  lemma FairStep(me: Worker, m: Memory, ch: Choice, w: nat, n: nat, queued: set<nat>, published: nat)
    requires FairOk(me) && OrderOk(m.q, published)
    ensures FairOk(WorkerAfter(me, w, n, Exec(m, WorkerOp(w, me.pc), ch).1, queued))
  {
    StreakStep(me, m, ch, w, n, queued, published);
    DetourAccount(me, m, ch, w, n, queued, published);
    SelectedStep(me, w, n, m, ch, queued);
    var r := Exec(m, WorkerOp(w, me.pc), ch).1;
    if r.Got? { SumSnoc(me.selected, r.t, IsHigh); } else { assert me.selected + [] == me.selected; }
  }

  ghost predicate AllFair(s: State) {
    forall w :: 0 <= w < |s.workers| ==> FairOk(s.workers[w])
  }

  lemma StepFair(s: State, e: Event, s': State)
    requires OrderOk(s.mem.q, |s.tasks|) && AllFair(s) && Step(s, e, s')
    ensures AllFair(s')
  {
    if e.Work? {
      assert FairOk(s.workers[e.w]);
      FairStep(s.workers[e.w], s.mem, e.ch, e.w, |s.workers|, QueuedIds(s.tasks), |s.tasks|);
    }
  }

  lemma {:induction false} RunFair(r: seq<State>, es: seq<Event>, i: nat)
    requires Run(r, es) && Init(r[0]) && i < |r|
    ensures AllFair(r[i])
  {
    if i > 0 {
      RunFair(r, es, i - 1);
      OrderPreserved(r, es, i - 1);
      assert StepAt(r, es, i - 1);
      StepFair(r[i - 1], es[i - 1], r[i]);
    }
  }

  // ---------- Fairness yields ----------

  function HighSelected(me: Worker): int {
    Sum(me.selected, IsHigh)
  }

  function FairRetries(me: Worker): int { me.fairRetries }

  function Detouring(me: Worker): int { Indicator(InDetour(me.pc)) }

  function StreakOf(me: Worker): int { me.streak }

  function BrokenOf(me: Worker): int { me.broken }

  lemma {:induction false} AccountSum(ws: seq<Worker>)
    ensures Sum(ws, Account)
            == HIGH_BURST_LIMIT * (Sum(ws, Detours) - Sum(ws, FairRetries) - Sum(ws, Detouring)) + Sum(ws, StreakOf)
  {
    if ws != [] { AccountSum(ws[..|ws| - 1]); }
  }

  /**
   * Per worker, the HIGH tasks it has selected are exactly 32 for each decided detour, plus the standing streak, plus
   * the streaks that lower tasks broke off. So 32 per counted detour plus the streak stays within the HIGH tasks
   * selected exactly when the worker is outside the fairness path or has lost 32 or more to broken streaks. Summed
   * over the workers this accounts for the `fairness_yields` statistic.
   */
  lemma YieldsArePaid(r: seq<State>, es: seq<Event>, i: nat, w: nat)
    requires Run(r, es) && Init(r[0]) && i < |r| && w < |r[i].workers|
    ensures var me := r[i].workers[w];
            && Sum(me.selected, IsHigh)
               == 32 * (me.detours - me.fairRetries - Indicator(InDetour(me.pc))) + me.streak + me.broken
            && (32 * (me.detours - me.fairRetries) + me.streak <= Sum(me.selected, IsHigh)
                <==> !InDetour(me.pc) || me.broken >= 32)
    ensures var s := r[i];
            Sum(s.workers, HighSelected)
            == 32 * (s.mem.stats.fairnessYields - Sum(s.workers, FairRetries) - Sum(s.workers, Detouring))
               + Sum(s.workers, StreakOf) + Sum(s.workers, BrokenOf)
  {
    RunFair(r, es, i);
    RunInvariant(r, es, i);
    var s := r[i];
    assert FairOk(s.workers[w]);
    forall v | 0 <= v < |s.workers|
      ensures HighSelected(s.workers[v]) == Account(s.workers[v]) + BrokenOf(s.workers[v])
    {
      assert FairOk(s.workers[v]);
    }
    SumAdd(s.workers, Account, BrokenOf, HighSelected);
    AccountSum(s.workers);
  }

  // ---------- The burst limit over a window of a run ----------

  ghost predicate AllHigh(xs: seq<Task>) {
    forall i :: 0 <= i < |xs| ==> xs[i].priority == High
  }

  /** The tasks worker w selected after state s0. */
  function Since(s0: Worker, s: Worker): seq<Task>
    requires |s0.selected| <= |s.selected|
  {
    s.selected[|s0.selected|..]
  }

  /**
   * Between two moments of a worker's life in which it selects only HIGH tasks, the streak grows by the number of
   * selections, less 32 for each dry detour.
   */
  ghost predicate WindowOk(a: Worker, b: Worker) {
    && |a.selected| <= |b.selected| && a.dry <= b.dry
    && (AllHigh(Since(a, b)) ==> |Since(a, b)| == b.streak - a.streak + 32 * (b.dry - a.dry))
  }

  predicate AtFairLow(pc: WorkerPc) {
    pc.Pop? && pc.probe.FairLow?
  }

  /** A HIGH selection adds one to the streak; without a selection the streak falls by 32 in a dry detour only. */
  lemma StreakAccount(me: Worker, m: Memory, ch: Choice, w: nat, n: nat, queued: set<nat>)
    requires StreakOk(me)
    ensures var r := Exec(m, WorkerOp(w, me.pc), ch).1;
            var me' := WorkerAfter(me, w, n, r, queued);
            && (r.Got? ==> me'.dry == me.dry && me'.streak == Streak(me.streak, r.t))
            && (!r.Got? ==> me'.dry >= me.dry && me'.streak + 32 * me'.dry == me.streak + 32 * me.dry)
  {
    if me.pc.Pop? {
      match me.pc.probe
      case Steal(_) =>
      case Choose =>
      case Missed(_) =>
      case _ =>
    }
  }

  /** Without a selection the streak falls only in a detour that found first NORMAL and then LOW empty. */
  lemma StreakRests(me: Worker, m: Memory, ch: Choice, w: nat, n: nat, queued: set<nat>)
    requires w < |m.q.deques|
    ensures var r := Exec(m, WorkerOp(w, me.pc), ch).1;
            var me' := WorkerAfter(me, w, n, r, queued);
            && (me'.dry == if AtFairLow(me.pc) && r == Empty then me.dry + 1 else me.dry)
            && (AtFairLow(me.pc) && r == Empty ==> m.q.low == [])
            && (!r.Got? && me'.dry == me.dry ==> me'.streak == me.streak)
            && (AtFairLow(me'.pc) ==> m.q.normal == [] && !AtFairLow(me.pc))
  {
    if me.pc.Pop? {
      match me.pc.probe
      case FairNormal =>
      case FairLow =>
      case Steal(_) =>
      case Choose =>
      case Missed(_) =>
      case _ =>
    }
  }

  lemma WindowStep(a: Worker, me: Worker, m: Memory, ch: Choice, w: nat, n: nat, queued: set<nat>)
    requires WindowOk(a, me) && StreakOk(me)
    ensures WindowOk(a, WorkerAfter(me, w, n, Exec(m, WorkerOp(w, me.pc), ch).1, queued))
  {
    SelectedStep(me, w, n, m, ch, queued);
    StreakAccount(me, m, ch, w, n, queued);
    var r := Exec(m, WorkerOp(w, me.pc), ch).1;
    var me' := WorkerAfter(me, w, n, r, queued);
    if AllHigh(Since(a, me')) {
      assert AllHigh(Since(a, me)) by {
        forall i | 0 <= i < |Since(a, me)| ensures Since(a, me)[i].priority == High {
          assert Since(a, me')[i] == Since(a, me)[i];
        }
      }
      if r.Got? { assert Since(a, me')[|Since(a, me)|] == r.t; }
    }
  }

  lemma WindowNext(r: seq<State>, es: seq<Event>, k: nat, w: nat, a: Worker)
    requires Run(r, es) && Init(r[0]) && k < |es| && w < |r[k].workers| && WindowOk(a, r[k].workers[w])
    ensures w < |r[k + 1].workers| && WindowOk(a, r[k + 1].workers[w])
  {
    RunFair(r, es, k);
    assert StepAt(r, es, k);
    var s, e := r[k], es[k];
    assert FairOk(s.workers[w]);
    if e.Work? && e.w == w {
      WindowStep(a, s.workers[w], s.mem, e.ch, w, |s.workers|, QueuedIds(s.tasks));
    }
  }

  lemma {:induction false} Window(r: seq<State>, es: seq<Event>, i: nat, j: nat, w: nat)
    requires Run(r, es) && Init(r[0]) && i <= j < |r| && w < |r[i].workers|
    ensures w < |r[j].workers| && WindowOk(r[i].workers[w], r[j].workers[w])
  {
    if i < j {
      Window(r, es, i, j - 1, w);
      WindowNext(r, es, j - 1, w, r[i].workers[w]);
    }
  }

  /**
   * The burst limit, exactly: in any stretch of any run in which worker w selects only HIGH tasks, it selects as many
   * as its streak has grown plus 32 for each of its dry detours. So it selects 33 or more in a row exactly when that
   * sum reaches 33, which takes a detour that found NORMAL and then LOW empty.
   */
  lemma BurstExact(r: seq<State>, es: seq<Event>, i: nat, j: nat, w: nat)
    requires Run(r, es) && Init(r[0]) && i <= j < |r| && w < |r[i].workers|
    ensures w < |r[j].workers|
    ensures |r[i].workers[w].selected| <= |r[j].workers[w].selected|
    ensures var a, b := r[i].workers[w], r[j].workers[w];
            && a.dry <= b.dry && a.streak <= 32 && b.streak <= 32
            && (AllHigh(Since(a, b)) ==>
                  && |Since(a, b)| == b.streak - a.streak + 32 * (b.dry - a.dry)
                  && (|Since(a, b)| >= 33 <==> b.streak + 32 * (b.dry - a.dry) >= a.streak + 33)
                  && (b.dry == a.dry ==> |Since(a, b)| <= 32 - a.streak))
  {
    Window(r, es, i, j, w);
    RunFair(r, es, i);
    RunFair(r, es, j);
    assert FairOk(r[i].workers[w]) && FairOk(r[j].workers[w]);
  }

  // ---------- When one lower injector never runs dry ----------

  ghost predicate Kept(r: seq<State>, i: nat, j: nat, p: Priority)
    requires i <= j < |r|
  {
    forall k :: i <= k <= j ==> Injector(r[k].mem.q, p) != []
  }

  /**
   * With LOW never empty no detour is dry. With NORMAL never empty only one can be: a detour that was already past
   * NORMAL when the stretch began.
   */
  ghost predicate DryOk(a: Worker, b: Worker, normalKept: bool) {
    if normalKept then
      || (b.dry == a.dry && (AtFairLow(b.pc) ==> AtFairLow(a.pc)))
      || (b.dry == a.dry + 1 && AtFairLow(a.pc) && !AtFairLow(b.pc))
    else b.dry == a.dry
  }

  lemma DryStep(a: Worker, me: Worker, m: Memory, ch: Choice, w: nat, n: nat, queued: set<nat>, normalKept: bool)
    requires DryOk(a, me, normalKept) && w < |m.q.deques|
    requires if normalKept then m.q.normal != [] else m.q.low != []
    ensures DryOk(a, WorkerAfter(me, w, n, Exec(m, WorkerOp(w, me.pc), ch).1, queued), normalKept)
  {
    StreakRests(me, m, ch, w, n, queued);
  }

  lemma DryOne(s: State, e: Event, s': State, w: nat, a: Worker, normalKept: bool)
    requires WellFormed(s) && Step(s, e, s') && w < |s.workers| && DryOk(a, s.workers[w], normalKept)
    requires Injector(s.mem.q, if normalKept then Normal else Low) != []
    ensures w < |s'.workers| && DryOk(a, s'.workers[w], normalKept)
  {
    if e.Work? && e.w == w {
      DryStep(a, s.workers[w], s.mem, e.ch, w, |s.workers|, QueuedIds(s.tasks), normalKept);
    }
  }

  lemma DryNext(r: seq<State>, es: seq<Event>, k: nat, w: nat, a: Worker, normalKept: bool)
    requires Run(r, es) && Init(r[0]) && k < |es| && w < |r[k].workers| && DryOk(a, r[k].workers[w], normalKept)
    requires Injector(r[k].mem.q, if normalKept then Normal else Low) != []
    ensures w < |r[k + 1].workers| && DryOk(a, r[k + 1].workers[w], normalKept)
  {
    RunInvariant(r, es, k);
    assert StepAt(r, es, k);
    DryOne(r[k], es[k], r[k + 1], w, a, normalKept);
  }

  lemma {:induction false} DryWindow(r: seq<State>, es: seq<Event>, i: nat, j: nat, w: nat, normalKept: bool)
    requires Run(r, es) && Init(r[0]) && i <= j < |r| && w < |r[i].workers|
    requires Kept(r, i, j, if normalKept then Normal else Low)
    ensures w < |r[j].workers| && DryOk(r[i].workers[w], r[j].workers[w], normalKept)
  {
    if i < j {
      DryWindow(r, es, i, j - 1, w, normalKept);
      assert Injector(r[j - 1].mem.q, if normalKept then Normal else Low) != [];
      DryNext(r, es, j - 1, w, r[i].workers[w], normalKept);
    }
  }

  /**
   * Burst limit: during a stretch in which the NORMAL injector (or the LOW one) is never empty, a worker never selects
   * more than 32 HIGH tasks in a row, whatever else happens in between.
   */
  lemma BurstLimit(r: seq<State>, es: seq<Event>, i: nat, j: nat, w: nat)
    requires Run(r, es) && Init(r[0]) && i <= j < |r| && w < |r[i].workers|
    requires Kept(r, i, j, Normal) || Kept(r, i, j, Low)
    ensures w < |r[j].workers| && r[j].workers[w].streak <= 32
    ensures |r[i].workers[w].selected| <= |r[j].workers[w].selected|
    ensures |Since(r[i].workers[w], r[j].workers[w])| >= 33 ==> !AllHigh(Since(r[i].workers[w], r[j].workers[w]))
  {
    BurstExact(r, es, i, j, w);
    DryWindow(r, es, i, j, w, Kept(r, i, j, Normal));
    RunFair(r, es, i);
    assert FairOk(r[i].workers[w]);
  }
}
