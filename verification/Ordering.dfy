/** Publication order: what the injectors and deques keep of it, for any number of workers and for a single one. */
module Ordering {
  import opened Queues
  import opened Memory
  import opened Programs
  import opened Machine
  import opened Custody
  import opened Ledger
  import opened Searching

  /** Tasks of equal priority appear in publication order. */
  predicate Increasing(xs: seq<Task>) {
    forall i, j :: 0 <= i < j < |xs| && xs[i].priority == xs[j].priority ==> xs[i].id < xs[j].id
  }

  /** Every task of xs was published before every task of ys that has the same priority. */
  predicate Before(xs: seq<Task>, ys: seq<Task>) {
    forall x, y :: x in xs && y in ys && x.priority == y.priority ==> x.id < y.id
  }

  predicate Only(xs: seq<Task>, p: Priority) {
    forall t :: t in xs ==> t.priority == p
  }

  predicate Below(xs: seq<Task>, n: nat) {
    forall t :: t in xs ==> t.id < n
  }

  predicate InjectorOk(xs: seq<Task>, p: Priority, published: nat) {
    Only(xs, p) && Increasing(xs) && Below(xs, published)
  }

  ghost predicate OrderOk(q: Queues, published: nat) {
    && (forall p :: InjectorOk(Injector(q, p), p, published))
    && (forall w :: 0 <= w < |q.deques| ==> Increasing(q.deques[w]) && Below(q.deques[w], published))
    && (forall w, p :: 0 <= w < |q.deques| ==> Before(q.deques[w], Injector(q, p)))
  }

  lemma IncreasingConcat(xs: seq<Task>, ys: seq<Task>)
    ensures Increasing(xs + ys) <==> Increasing(xs) && Increasing(ys) && Before(xs, ys)
  {
    var zs := xs + ys;
    if Increasing(zs) {
      forall i, j | 0 <= i < j < |xs| && xs[i].priority == xs[j].priority ensures xs[i].id < xs[j].id {
        assert zs[i] == xs[i] && zs[j] == xs[j];
      }
      forall i, j | 0 <= i < j < |ys| && ys[i].priority == ys[j].priority ensures ys[i].id < ys[j].id {
        assert zs[|xs| + i] == ys[i] && zs[|xs| + j] == ys[j];
      }
      forall x, y | x in xs && y in ys && x.priority == y.priority ensures x.id < y.id {
        var i :| 0 <= i < |xs| && xs[i] == x;
        var j :| 0 <= j < |ys| && ys[j] == y;
        assert zs[i] == x && zs[|xs| + j] == y;
      }
    }
    if Increasing(xs) && Increasing(ys) && Before(xs, ys) {
      forall i, j | 0 <= i < j < |zs| && zs[i].priority == zs[j].priority ensures zs[i].id < zs[j].id {
        if i < |xs| && j >= |xs| { assert zs[i] in xs && zs[j] in ys; }
      }
    }
  }

  lemma PushInjectorOrder(xs: seq<Task>, t: Task)
    requires InjectorOk(xs, t.priority, t.id)
    ensures InjectorOk(xs + [t], t.priority, t.id + 1)
  {
    IncreasingConcat(xs, [t]);
  }

  lemma PushBefore(d: seq<Task>, xs: seq<Task>, t: Task)
    requires Before(d, xs) && Below(d, t.id)
    ensures Before(d, xs + [t])
  {
  }

  lemma PushOrder(q: Queues, t: Task)
    requires OrderOk(q, t.id)
    ensures OrderOk(PushTask(q, t), t.id + 1)
  {
    var q' := PushTask(q, t);
    forall p ensures InjectorOk(Injector(q', p), p, t.id + 1) {
      assert InjectorOk(Injector(q, p), p, t.id);
      if p == t.priority { PushInjectorOrder(Injector(q, p), t); } else { assert Injector(q', p) == Injector(q, p); }
    }
    forall w, p | 0 <= w < |q.deques| ensures Before(q'.deques[w], Injector(q', p)) {
      assert Before(q.deques[w], Injector(q, p)) && Below(q.deques[w], t.id);
      if p == t.priority { PushBefore(q.deques[w], Injector(q, p), t); }
      else { assert Injector(q', p) == Injector(q, p); }
    }
  }

  lemma FrontOrder(q: Queues, w: nat, published: nat)
    requires OrderOk(q, published) && w < |q.deques| && q.deques[w] != []
    ensures OrderOk(TakeFront(q, w), published)
  {
    var q' := TakeFront(q, w);
    assert q.deques[w] == [q.deques[w][0]] + q.deques[w][1..];
    IncreasingConcat([q.deques[w][0]], q.deques[w][1..]);
    forall p ensures Injector(q', p) == Injector(q, p) {}
    forall v, p | 0 <= v < |q.deques| ensures Before(q'.deques[v], Injector(q', p)) {
      assert Before(q.deques[v], Injector(q, p));
    }
  }

  /** The head, the moved prefix and the rest of an injector. */
  lemma SplitOrder(xs: seq<Task>, n: nat, p: Priority, published: nat)
    requires InjectorOk(xs, p, published) && n < |xs|
    ensures InjectorOk(xs[1 + n..], p, published)
    ensures InjectorOk(xs[1..1 + n], p, published)
    ensures Before(xs[1..1 + n], xs[1 + n..])
  {
    var moved, rest := xs[1..1 + n], xs[1 + n..];
    assert xs == [xs[0]] + (moved + rest);
    IncreasingConcat([xs[0]], moved + rest);
    IncreasingConcat(moved, rest);
    forall t | t in moved || t in rest ensures t in xs {}
  }

  /** A deque extended by the moved prefix stays in order, and ahead of every injector. */
  lemma ExtendOrder(d: seq<Task>, xs: seq<Task>, n: nat, p: Priority, published: nat)
    requires InjectorOk(xs, p, published) && n < |xs|
    requires Increasing(d) && Below(d, published) && Before(d, xs)
    ensures var d' := d + xs[1..1 + n]; Increasing(d') && Below(d', published) && Before(d', xs[1 + n..])
  {
    var moved, rest := xs[1..1 + n], xs[1 + n..];
    SplitOrder(xs, n, p, published);
    assert Before(d, moved) && Before(d, rest) by { forall t | t in moved || t in rest ensures t in xs {} }
    IncreasingConcat(d, moved);
  }

  lemma OtherOrder(d: seq<Task>, moved: seq<Task>, p: Priority, ys: seq<Task>, o: Priority)
    requires Only(moved, p) && Only(ys, o) && p != o && Before(d, ys)
    ensures Before(d + moved, ys)
  {
  }

  lemma BatchInjectorOrder(q: Queues, p: Priority, w: nat, extra: nat, published: nat, o: Priority)
    requires OrderOk(q, published) && w < |q.deques| && Injector(q, p) != []
    ensures InjectorOk(Injector(TakeBatch(q, p, w, extra), o), o, published)
  {
    assert InjectorOk(Injector(q, o), o, published);
    if o == p { SplitOrder(Injector(q, p), Extra(Injector(q, p), extra), p, published); }
  }

  lemma BatchDequeOrder(q: Queues, p: Priority, w: nat, extra: nat, published: nat)
    requires OrderOk(q, published) && w < |q.deques| && Injector(q, p) != []
    ensures var d := TakeBatch(q, p, w, extra).deques[w]; Increasing(d) && Below(d, published)
  {
    assert InjectorOk(Injector(q, p), p, published) && Before(q.deques[w], Injector(q, p));
    ExtendOrder(q.deques[w], Injector(q, p), Extra(Injector(q, p), extra), p, published);
  }

  lemma SuffixBefore(d: seq<Task>, xs: seq<Task>, n: nat)
    requires Before(d, xs) && n <= |xs|
    ensures Before(d, xs[n..])
  {
    forall t | t in xs[n..] ensures t in xs {}
  }

  /** A deque extended by the moved prefix stays ahead of injector o, which is the one it came from or another one. */
  lemma ExtendBefore(d: seq<Task>, xs: seq<Task>, n: nat, p: Priority, ys: seq<Task>, o: Priority, published: nat)
    requires InjectorOk(xs, p, published) && n < |xs| && Increasing(d) && Below(d, published) && Before(d, xs)
    requires if o == p then ys == xs else Only(ys, o) && Before(d, ys)
    ensures Before(d + xs[1..1 + n], if o == p then xs[1 + n..] else ys)
  {
    if o == p {
      ExtendOrder(d, xs, n, p, published);
    } else {
      SplitOrder(xs, n, p, published);
      OtherOrder(d, xs[1..1 + n], p, ys, o);
    }
  }

  /** The deque that received the batch, against each injector. */
  lemma OwnBatchBefore(q: Queues, p: Priority, w: nat, extra: nat, published: nat, o: Priority)
    requires OrderOk(q, published) && w < |q.deques| && Injector(q, p) != []
    ensures var q' := TakeBatch(q, p, w, extra); Before(q'.deques[w], Injector(q', o))
  {
    var xs, d := Injector(q, p), q.deques[w];
    var n := Extra(xs, extra);
    assert InjectorOk(xs, p, published) && Before(d, xs) && Increasing(d) && Below(d, published);
    assert InjectorOk(Injector(q, o), o, published) && Before(d, Injector(q, o));
    var q' := TakeBatch(q, p, w, extra);
    assert q'.deques[w] == d + xs[1..1 + n] && Injector(q', o) == if o == p then xs[1 + n..] else Injector(q, o);
    ExtendBefore(d, xs, n, p, Injector(q, o), o, published);
  }

  lemma BatchBefore(q: Queues, p: Priority, w: nat, extra: nat, published: nat, v: nat, o: Priority)
    requires OrderOk(q, published) && w < |q.deques| && v < |q.deques| && Injector(q, p) != []
    ensures var q' := TakeBatch(q, p, w, extra); Before(q'.deques[v], Injector(q', o))
  {
    if v == w {
      OwnBatchBefore(q, p, w, extra, published, o);
    } else {
      assert Before(q.deques[v], Injector(q, o));
      if o == p { SuffixBefore(q.deques[v], Injector(q, p), 1 + Extra(Injector(q, p), extra)); }
    }
  }

  /** The moved prefix lands behind what the deque had and stays ahead of what the injector keeps. */
  lemma BatchOrder(q: Queues, p: Priority, w: nat, extra: nat, published: nat)
    requires OrderOk(q, published) && w < |q.deques| && Injector(q, p) != []
    ensures OrderOk(TakeBatch(q, p, w, extra), published)
  {
    forall o ensures InjectorOk(Injector(TakeBatch(q, p, w, extra), o), o, published) {
      BatchInjectorOrder(q, p, w, extra, published, o);
    }
    BatchDequeOrder(q, p, w, extra, published);
    forall v, o | 0 <= v < |q.deques|
      ensures Before(TakeBatch(q, p, w, extra).deques[v], Injector(TakeBatch(q, p, w, extra), o))
    {
      BatchBefore(q, p, w, extra, published, v, o);
    }
  }

  lemma ExecOrder(m: Memory, op: Op, ch: Choice, published: nat)
    requires OrderOk(m.q, published) && (op.Push? ==> op.t.id == published)
    ensures OrderOk(Exec(m, op, ch).0.q, if op.Push? then published + 1 else published)
  {
    match op
    case Push(t) => PushOrder(m.q, t);
    case PopLocal(w) => if DequeAt(m.q, w) != [] { FrontOrder(m.q, w, published); }
    case StealFrom(w) => if DequeAt(m.q, w) != [] { FrontOrder(m.q, w, published); }
    case Batch(p, w) =>
      if w < |m.q.deques| && Injector(m.q, p) != [] { BatchOrder(m.q, p, w, ch.extra, published); }
    case _ =>
  }

  lemma StepOrder(s: State, e: Event, s': State)
    requires InCustody(s) && OrderOk(s.mem.q, |s.tasks|) && Step(s, e, s')
    ensures OrderOk(s'.mem.q, |s'.tasks|)
  {
    if e.Submit? {
      SubmitOrder(s, e.c, e.ch);
    } else if e.Work? {
      WorkOrder(s, e.w, e.ch);
    } else {
      assert s'.mem.q == s.mem.q && s'.tasks == s.tasks;
    }
  }

  lemma SubmitOrder(s: State, c: nat, ch: Choice)
    requires OrderOk(s.mem.q, |s.tasks|) && Enabled(s, Submit(c, ch))
    ensures var s' := Next(s, Submit(c, ch)); OrderOk(s'.mem.q, |s'.tasks|)
  {
    SubmitEffect(s, c, ch);
    if s.calls[c].pc.Publish? { PushOrder(s.mem.q, Task(|s.tasks|, s.calls[c].priority, s.calls[c].group)); }
  }

  lemma WorkOrder(s: State, w: nat, ch: Choice)
    requires InCustody(s) && OrderOk(s.mem.q, |s.tasks|) && Enabled(s, Work(w, ch))
    ensures var s' := Next(s, Work(w, ch)); OrderOk(s'.mem.q, |s'.tasks|)
  {
    FollowEffect(s, w, ch);
    OwnBatch(s.workers[w].pc, w);
    ExecOrder(s.mem, WorkerOp(w, s.workers[w].pc), ch, |s.tasks|);
  }

  /**
   * Order preservation with any number of workers: in every reachable state each injector holds only its own priority,
   * in publication order; each deque holds each priority in publication order; and whatever a deque holds was
   * published before everything of that priority still in the injector.
   */
  lemma {:induction false} OrderPreserved(r: seq<State>, es: seq<Event>, i: nat)
    requires Run(r, es) && Init(r[0]) && i < |r|
    ensures OrderOk(r[i].mem.q, |r[i].tasks|)
  {
    if i == 0 {
      forall p ensures Injector(r[0].mem.q, p) == [] {}
    } else {
      OrderPreserved(r, es, i - 1);
      RunInvariant(r, es, i - 1);
      assert StepAt(r, es, i - 1);
      StepOrder(r[i - 1], es[i - 1], r[i]);
    }
  }

  // ---------- A single worker ----------

  function Highs(xs: seq<Task>): seq<Task> {
    if xs == [] then []
    else Highs(xs[..|xs| - 1]) + (if xs[|xs| - 1].priority == High then [xs[|xs| - 1]] else [])
  }

  function PublicationOrder(tasks: seq<Record>): seq<Task> {
    seq(|tasks|, i requires 0 <= i < |tasks| => tasks[i].task)
  }

  lemma {:induction false} HighsConcat(xs: seq<Task>, ys: seq<Task>)
    ensures Highs(xs + ys) == Highs(xs) + Highs(ys)
  {
    if ys == [] {
      assert xs + ys == xs;
    } else {
      var n := |ys| - 1;
      assert (xs + ys)[..|xs| + n] == xs + ys[..n];
      HighsConcat(xs, ys[..n]);
    }
  }

  lemma {:induction false} HighsOnly(xs: seq<Task>, p: Priority)
    requires Only(xs, p)
    ensures Highs(xs) == if p == High then xs else []
  {
    if xs != [] {
      var ys := xs[..|xs| - 1];
      assert Only(ys, p) by { forall t | t in ys ensures t in xs {} }
      assert xs[|xs| - 1] in xs;
      HighsOnly(ys, p);
    }
  }

  /** HIGH tasks selected, then those in the deque, then those in the injector: exactly the order of publication. */
  ghost predicate HighFifo(selected: seq<Task>, deque: seq<Task>, high: seq<Task>, published: seq<Task>) {
    Highs(selected) + Highs(deque) + high == Highs(published)
  }

  lemma AppendHighs(published: seq<Task>, t: Task)
    ensures Highs(published + [t]) == Highs(published) + if t.priority == High then [t] else []
  {
    assert (published + [t])[..|published|] == published;
  }

  lemma PushFifo(selected: seq<Task>, q: Queues, published: seq<Task>, t: Task)
    requires |q.deques| == 1 && HighFifo(selected, q.deques[0], q.high, published)
    ensures HighFifo(selected, PushTask(q, t).deques[0], PushTask(q, t).high, published + [t])
  {
    AppendHighs(published, t);
    var a, b, c := Highs(selected), Highs(q.deques[0]), q.high;
    if t.priority == High { assert a + b + (c + [t]) == (a + b + c) + [t]; }
  }

  lemma PopFifo(selected: seq<Task>, d: seq<Task>, high: seq<Task>, published: seq<Task>)
    requires d != [] && HighFifo(selected, d, high, published)
    ensures HighFifo(selected + [d[0]], d[1..], high, published)
  {
    assert d == [d[0]] + d[1..];
    HighsConcat([d[0]], d[1..]);
    HighsConcat(selected, [d[0]]);
  }

  lemma Regroup(a: seq<Task>, x: Task, m: seq<Task>, rest: seq<Task>)
    ensures (a + [x]) + m + rest == a + [] + ([x] + m + rest)
  {
  }

  lemma HighBatchFifo(selected: seq<Task>, x: Task, moved: seq<Task>, rest: seq<Task>, published: seq<Task>)
    requires HighFifo(selected, [], [x] + moved + rest, published) && x.priority == High && Only(moved, High)
    ensures HighFifo(selected + [x], moved, rest, published)
  {
    assert Highs(moved) == moved by { HighsOnly(moved, High); }
    assert Highs(selected + [x]) == Highs(selected) + [x] by { HighsConcat(selected, [x]); HighsOnly([x], High); }
    Regroup(Highs(selected), x, moved, rest);
  }

  lemma OtherBatchFifo(selected: seq<Task>, x: Task, d: seq<Task>, moved: seq<Task>, p: Priority, high: seq<Task>,
                       published: seq<Task>)
    requires HighFifo(selected, d, high, published) && p != High && x.priority == p && Only(moved, p)
    ensures HighFifo(selected + [x], d + moved, high, published)
  {
    assert Highs(d + moved) == Highs(d) by { HighsConcat(d, moved); HighsOnly(moved, p); }
    assert Highs(selected + [x]) == Highs(selected) by { HighsConcat(selected, [x]); HighsOnly([x], p); }
  }

  lemma BatchFifo(selected: seq<Task>, q: Queues, published: seq<Task>, p: Priority, extra: nat)
    requires |q.deques| == 1 && HighFifo(selected, q.deques[0], q.high, published)
    requires Injector(q, p) != [] && Only(Injector(q, p), p) && (p == High ==> q.deques[0] == [])
    ensures var q' := TakeBatch(q, p, 0, extra);
            HighFifo(selected + [Injector(q, p)[0]], q'.deques[0], q'.high, published)
  {
    var xs := Injector(q, p);
    var n := Extra(xs, extra);
    var moved, rest := xs[1..1 + n], xs[1 + n..];
    assert xs[0].priority == p by { assert xs[0] in xs; }
    assert Only(moved, p) by { forall t | t in moved ensures t in xs {} }
    if p == High {
      Split(xs, n);
      HighBatchFifo(selected, xs[0], moved, rest, published);
      assert [] + moved == moved;
    } else {
      OtherBatchFifo(selected, xs[0], q.deques[0], moved, p, q.high, published);
    }
  }

  ghost predicate SoleFifo(s: State) {
    |s.workers| == 1 && |s.mem.q.deques| == 1 &&
    HighFifo(s.workers[0].selected, s.mem.q.deques[0], s.mem.q.high, PublicationOrder(s.tasks))
  }

  lemma SubmitFifo(s: State, c: nat, ch: Choice)
    requires SoleFifo(s) && Enabled(s, Submit(c, ch))
    ensures SoleFifo(Next(s, Submit(c, ch)))
  {
    SubmitEffect(s, c, ch);
    var s' := Next(s, Submit(c, ch));
    if s.calls[c].pc.Publish? {
      var t := Task(|s.tasks|, s.calls[c].priority, s.calls[c].group);
      assert PublicationOrder(s'.tasks) == PublicationOrder(s.tasks) + [t];
      PushFifo(s.workers[0].selected, s.mem.q, PublicationOrder(s.tasks), t);
    }
  }

  /** What a worker's operation does to its own selections: it appends the task answered, or nothing. */
  lemma SelectedStep(me: Worker, w: nat, n: nat, m: Memory, ch: Choice, queued: set<nat>)
    ensures var r := Exec(m, WorkerOp(w, me.pc), ch).1;
            WorkerAfter(me, w, n, r, queued).selected == me.selected + if r.Got? then [r.t] else []
  {
  }

  /** One operation of the only worker: what it answers is selected, and HIGH order survives. */
  lemma ExecFifo(m: Memory, me: Worker, ch: Choice, published: seq<Task>)
    requires |m.q.deques| == 1 && HighFifo(me.selected, m.q.deques[0], m.q.high, published)
    requires OrderOk(m.q, |published|) && SearchOk(m.q, 0, me, |published|) && WorkerOk(me.pc)
    ensures var (m', r) := Exec(m, WorkerOp(0, me.pc), ch);
            && |m'.q.deques| == 1
            && HighFifo(me.selected + (if r.Got? then [r.t] else []), m'.q.deques[0], m'.q.high, published)
  {
    OwnBatch(me.pc, 0);
    if WorkerOp(0, me.pc).StealFrom? {
      assert false;
    } else if WorkerOp(0, me.pc).Batch? {
      BatchExecFifo(m, me, ch, published);
    } else {
      PopExecFifo(m, me, ch, published);
    }
  }

  lemma OwnPop(pc: WorkerPc, w: nat)
    ensures WorkerOp(w, pc).PopLocal? ==> WorkerOp(w, pc).w == w
  {
  }

  lemma PopExecFifo(m: Memory, me: Worker, ch: Choice, published: seq<Task>)
    requires |m.q.deques| == 1 && HighFifo(me.selected, m.q.deques[0], m.q.high, published)
    requires var op := WorkerOp(0, me.pc); !op.StealFrom? && !op.Batch? && !op.Push?
    ensures var (m', r) := Exec(m, WorkerOp(0, me.pc), ch);
            && |m'.q.deques| == 1
            && HighFifo(me.selected + (if r.Got? then [r.t] else []), m'.q.deques[0], m'.q.high, published)
  {
    ExecShape(m, WorkerOp(0, me.pc), ch);
    if Exec(m, WorkerOp(0, me.pc), ch).1.Got? {
      OwnPop(me.pc, 0);
      PopTakesFront(m, 0, ch);
      PopFifo(me.selected, m.q.deques[0], m.q.high, published);
    } else {
      assert me.selected + [] == me.selected;
    }
  }

  lemma BatchExecFifo(m: Memory, me: Worker, ch: Choice, published: seq<Task>)
    requires |m.q.deques| == 1 && HighFifo(me.selected, m.q.deques[0], m.q.high, published)
    requires OrderOk(m.q, |published|) && SearchOk(m.q, 0, me, |published|)
    requires WorkerOp(0, me.pc).Batch? && WorkerOp(0, me.pc).w == 0
    ensures var (m', r) := Exec(m, WorkerOp(0, me.pc), ch);
            && |m'.q.deques| == 1
            && HighFifo(me.selected + (if r.Got? then [r.t] else []), m'.q.deques[0], m'.q.high, published)
  {
    var p := WorkerOp(0, me.pc).p;
    if !ch.fail && Injector(m.q, p) != [] {
      assert InjectorOk(Injector(m.q, p), p, |published|);
      HighOnlyWhenEmpty(m.q, me, |published|);
      BatchFifo(me.selected, m.q, published, p, ch.extra);
    } else {
      assert me.selected + [] == me.selected;
    }
  }

  lemma HighOnlyWhenEmpty(q: Queues, me: Worker, published: nat)
    requires |q.deques| == 1 && SearchOk(q, 0, me, published) && WorkerOp(0, me.pc).Batch?
    ensures WorkerOp(0, me.pc).p == High ==> q.deques[0] == []
  {
  }

  lemma WorkFifo(s: State, ch: Choice)
    requires InCustody(s) && SearchesOk(s) && OrderOk(s.mem.q, |s.tasks|) && SoleFifo(s) && Enabled(s, Work(0, ch))
    ensures SoleFifo(Next(s, Work(0, ch)))
  {
    FollowEffect(s, 0, ch);
    assert PublicationOrder(Next(s, Work(0, ch)).tasks) == PublicationOrder(s.tasks);
    SelectedStep(s.workers[0], 0, 1, s.mem, ch, QueuedIds(s.tasks));
    assert SearchOk(s.mem.q, 0, s.workers[0], |s.tasks|) && WorkerOk(s.workers[0].pc);
    ExecFifo(s.mem, s.workers[0], ch, PublicationOrder(s.tasks));
  }

  lemma StepFifo(s: State, e: Event, s': State)
    requires InCustody(s) && SearchesOk(s) && OrderOk(s.mem.q, |s.tasks|) && SoleFifo(s) && Step(s, e, s')
    ensures SoleFifo(s')
  {
    if e.Submit? {
      SubmitFifo(s, e.c, e.ch);
    } else if e.Work? {
      WorkFifo(s, e.ch);
    } else {
      QuietFifo(s, e, s');
    }
  }

  lemma QuietFifo(s: State, e: Event, s': State)
    requires SoleFifo(s) && Step(s, e, s') && !e.Submit? && !e.Work?
    ensures SoleFifo(s')
  {
    assert s'.mem.q == s.mem.q && s'.tasks == s.tasks && s'.workers == s.workers;
  }

  /** With one worker, HIGH tasks are selected in exactly the order in which they were published. */
  lemma {:induction false} SingleWorkerFifo(r: seq<State>, es: seq<Event>, i: nat)
    requires Run(r, es) && Init(r[0]) && i < |r| && |r[0].workers| == 1
    ensures SoleFifo(r[i])
  {
    if i > 0 {
      SingleWorkerFifo(r, es, i - 1);
      FifoNext(r, es, i - 1);
    }
  }

  lemma FifoNext(r: seq<State>, es: seq<Event>, i: nat)
    requires Run(r, es) && Init(r[0]) && i < |es| && SoleFifo(r[i])
    ensures SoleFifo(r[i + 1])
  {
    RunInvariant(r, es, i);
    RunSearches(r, es, i);
    OrderPreserved(r, es, i);
    assert StepAt(r, es, i);
    StepFifo(r[i], es[i], r[i + 1]);
  }
}
