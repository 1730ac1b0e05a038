/** Who has each task: a task is queued in exactly one place, or in exactly one worker's hand, or done. */
module Custody {
  import opened Sums
  import opened Queues
  import opened Memory
  import opened Programs
  import opened Machine

  // ---------- Invariants ----------

  predicate NeedsGroup(pc: CallPc) {
    pc.GroupCheck? || pc.GroupAdd? || pc.GroupRecheck? || pc.GroupUndo? || pc.FinalUndo?
  }

  predicate CallOk(m: Memory, call: Call) {
    && (call.group.Some? ==> call.group.value < |m.groups|)
    && (NeedsGroup(call.pc) ==> call.group.Some?)
  }

  predicate RecordOk(m: Memory, rec: Record, i: nat) {
    && rec.task.id == i
    && (rec.task.group.Some? ==> rec.task.group.value < |m.groups|)
    && rec.runs == if rec.phase == Queued || (rec.phase.Held? && rec.phase.stage == Taken) then 0 else 1
  }

  predicate WorkerOk(pc: WorkerPc) {
    && (pc.ReleaseGroup? ==> pc.task.group.Some?)
    && (pc.Pop? && pc.probe.Attempt? ==> pc.probe.victims != [])
    && (pc.Pop? && pc.probe.Steal? ==> pc.probe.victims != [])
    && (pc.Pop? && pc.probe.Missed? ==> pc.probe.victims != [])
  }

  ghost predicate WellFormed(s: State) {
    && |s.workers| == |s.mem.q.deques| >= 1
    && (forall c :: 0 <= c < |s.calls| ==> CallOk(s.mem, s.calls[c]))
    && (forall i :: 0 <= i < |s.tasks| ==> RecordOk(s.mem, s.tasks[i], i))
    && (forall w :: 0 <= w < |s.workers| ==> WorkerOk(s.workers[w].pc))
    && (forall x :: 0 <= x < |s.waiters| ==> s.waiters[x].target.OfGroup? ==> s.waiters[x].target.g < |s.mem.groups|)
  }

  predicate IsQueued(tasks: seq<Record>, t: Task) {
    t.id < |tasks| && tasks[t.id].task == t && tasks[t.id].phase == Queued
  }

  ghost predicate BagMatches(b: multiset<Task>, tasks: seq<Record>) {
    forall t :: b[t] == Indicator(IsQueued(tasks, t))
  }

  /** The queues hold exactly the tasks whose history says "queued", each once. */
  ghost predicate QueuesMatch(s: State) {
    BagMatches(Bag(s.mem.q), s.tasks)
  }

  predicate Holds(tasks: seq<Record>, w: nat, hand: Option<(Task, Stage)>) {
    hand.Some? ==>
      var (t, stage) := hand.value;
      t.id < |tasks| && tasks[t.id].task == t && tasks[t.id].phase == Held(w, stage)
  }

  /** Every task in a hand is on record as held there, and conversely. */
  ghost predicate HandsMatch(s: State) {
    && (forall w :: 0 <= w < |s.workers| ==> Holds(s.tasks, w, Hand(s.workers[w].pc)))
    && (forall i :: 0 <= i < |s.tasks| && s.tasks[i].phase.Held? ==>
          var w := s.tasks[i].phase.w;
          w < |s.workers| && Hand(s.workers[w].pc) == Some((s.tasks[i].task, s.tasks[i].phase.stage)))
  }

  ghost predicate InCustody(s: State) {
    WellFormed(s) && QueuesMatch(s) && HandsMatch(s)
  }

  // ---------- One atomic operation ----------

  /** Whatever an answer takes out of the queues it takes out once, and nothing else changes. */
  ghost predicate TakesOut(q: Queues, q': Queues, r: Response) {
    && |q'.deques| == |q.deques|
    && (r.Got? ==> r.t in Bag(q) && Bag(q') == Bag(q) - multiset{r.t} && Size(q') == Size(q) - 1)
    && (!r.Got? ==> q' == q)
  }

  /** Only a queue operation answers with a task. */
  predicate Fits(op: Op, r: Response) {
    r.Got? ==> op.PopLocal? || op.Batch? || op.StealFrom?
  }

  lemma ExecShape(m: Memory, op: Op, ch: Choice)
    ensures var (m', r) := Exec(m, op, ch);
            && |m'.q.deques| == |m.q.deques| && Fits(op, r)
            && (!op.Push? && !r.Got? ==> m'.q == m.q)
  {
  }

  lemma FrontTakesOut(m: Memory, w: nat)
    ensures var (m', r) := TakeFrom(m, w); TakesOut(m.q, m'.q, r) && m'.groups == m.groups
  {
    if DequeAt(m.q, w) != [] { TakeFrontBag(m.q, w); }
  }

  lemma BatchTakesOut(m: Memory, p: Priority, w: nat, ch: Choice)
    ensures var (m', r) := Exec(m, Batch(p, w), ch); TakesOut(m.q, m'.q, r) && m'.groups == m.groups
  {
    if w < |m.q.deques| && Injector(m.q, p) != [] {
      TakeBatchBag(m.q, p, w, ch.extra);
      TakeBatchSize(m.q, p, w, ch.extra);
    }
  }

  /** An operation takes the task it answers with out of the queues, adds the task it pushes, and nothing else. */
  lemma ExecBag(m: Memory, op: Op, ch: Choice)
    ensures var (m', r) := Exec(m, op, ch);
            && |m'.q.deques| == |m.q.deques|
            && |m'.groups| == |m.groups|
            && (!op.Push? ==> TakesOut(m.q, m'.q, r))
            && (op.Push? ==> r == Ack && Bag(m'.q) == Bag(m.q) + multiset{op.t} && Size(m'.q) == Size(m.q) + 1)
            && (r.Got? ==> op.PopLocal? || op.StealFrom? || op.Batch?)
  {
    match op
    case Push(t) => PushBag(m.q, t);
    case PopLocal(w) => FrontTakesOut(m, w);
    case StealFrom(w) => FrontTakesOut(m, w);
    case Batch(p, w) => BatchTakesOut(m, p, w, ch);
    case _ =>
  }

  lemma BatchTakes(m: Memory, p: Priority, w: nat, ch: Choice)
    requires Exec(m, Batch(p, w), ch).1.Got?
    ensures w < |m.q.deques| && Injector(m.q, p) != []
    ensures Exec(m, Batch(p, w), ch) == (m.(q := TakeBatch(m.q, p, w, ch.extra)), Got(Injector(m.q, p)[0]))
  {
  }

  lemma PopTakesFront(m: Memory, w: nat, ch: Choice)
    requires w < |m.q.deques| && Exec(m, PopLocal(w), ch).1.Got?
    ensures m.q.deques[w] != [] && Exec(m, PopLocal(w), ch) == (m.(q := TakeFront(m.q, w)), Got(m.q.deques[w][0]))
  {
  }

  lemma StealTakesFront(m: Memory, v: nat, ch: Choice)
    requires v < |m.q.deques| && Exec(m, StealFrom(v), ch).1.Got?
    ensures m.q.deques[v] != [] && Exec(m, StealFrom(v), ch) == (m.(q := TakeFront(m.q, v)), Got(m.q.deques[v][0]))
  {
  }

  /** A worker's hand changes only by taking what a queue answered, by moving on with it, or by letting go. */
  lemma HandStep(me: Worker, w: nat, n: nat, m: Memory, ch: Choice, queued: set<nat>)
    ensures var r := Exec(m, WorkerOp(w, me.pc), ch).1;
            var me' := WorkerAfter(me, w, n, r, queued);
            && (r.Got? ==> Hand(me.pc).None? && Hand(me'.pc) == Some((r.t, Taken)) && !me.pc.Running?)
            && (!r.Got? && Hand(me.pc).None? ==> Hand(me'.pc).None?)
            && (Hand(me.pc).Some? && Hand(me'.pc).Some? ==> Hand(me'.pc).value.0 == Hand(me.pc).value.0)
            && (me.pc.Running? <==>
                  && Hand(me.pc).Some? && Hand(me.pc).value.1 == Taken
                  && Hand(me'.pc).Some? && Hand(me'.pc).value.1 != Taken)
            && (Hand(me.pc).Some? && Hand(me'.pc).None? ==>
                  Hand(me.pc).value.1 == Recorded || Hand(me.pc).value.1 == SlotFreed)
            && (Hand(me.pc).Some? && Hand(me.pc).value.1 != Taken && Hand(me'.pc).Some? ==>
                  Hand(me'.pc).value.1 != Taken)
            && (WorkerOk(me.pc) ==> WorkerOk(me'.pc))
            && !WorkerOp(w, me.pc).Push?
  {
  }

  lemma UniqueQueued(s: State, t: Task)
    requires QueuesMatch(s) && t in Bag(s.mem.q)
    ensures IsQueued(s.tasks, t)
  {
    assert Bag(s.mem.q)[t] == Indicator(IsQueued(s.tasks, t));
  }

  // ---------- Preservation ----------

  lemma InitCustody(s: State)
    requires Init(s)
    ensures InCustody(s)
  {
    DequeBagEmpty(s.mem.q.deques);
  }

  lemma AppendMatches(b: multiset<Task>, tasks: seq<Record>, rec: Record)
    requires BagMatches(b, tasks) && rec.task.id == |tasks| && rec.phase == Queued
    ensures BagMatches(b + multiset{rec.task}, tasks + [rec])
  {
    forall u
      ensures IsQueued(tasks + [rec], u) <==> IsQueued(tasks, u) || u == rec.task
      ensures b[u] == Indicator(IsQueued(tasks, u))
    {
    }
  }

  /** A submission's step leaves queues and records alone, except that publishing adds the task to both. */
  lemma SubmitEffect(s: State, c: nat, ch: Choice)
    requires Enabled(s, Submit(c, ch))
    ensures var call := s.calls[c];
            var rec := Record(Task(|s.tasks|, call.priority, call.group), c, Queued, 0);
            var s' := Next(s, Submit(c, ch));
            if call.pc.Publish? then s'.mem.q == PushTask(s.mem.q, rec.task) && s'.tasks == s.tasks + [rec]
            else s'.mem.q == s.mem.q && s'.tasks == s.tasks
  {
  }

  lemma SubmitQueuesMatch(s: State, c: nat, ch: Choice)
    requires QueuesMatch(s) && Enabled(s, Submit(c, ch))
    ensures QueuesMatch(Next(s, Submit(c, ch)))
  {
    SubmitEffect(s, c, ch);
    var call := s.calls[c];
    var q, q' := s.mem.q, Next(s, Submit(c, ch)).mem.q;
    var tasks, tasks' := s.tasks, Next(s, Submit(c, ch)).tasks;
    assert BagMatches(Bag(q), tasks);
    assert BagMatches(Bag(q'), tasks') by {
      if call.pc.Publish? {
        var rec := Record(Task(|s.tasks|, call.priority, call.group), c, Queued, 0);
        AppendMatches(Bag(q), tasks, rec);
        PushBag(q, rec.task);
      }
    }
  }

  lemma SubmitCallOk(call: Call, m: Memory, capacity: nat, id: nat, ch: Choice)
    requires CallOk(m, call)
    ensures var (m', r) := Exec(m, CallOp(call, id), ch);
            |m'.groups| == |m.groups| && CallOk(m', call.(pc := CallAfter(call, capacity, id, r)))
  {
  }

  lemma SubmitRecords(s: State, c: nat, ch: Choice)
    requires WellFormed(s) && Enabled(s, Submit(c, ch))
    ensures var s' := Next(s, Submit(c, ch)); forall i :: 0 <= i < |s'.tasks| ==> RecordOk(s'.mem, s'.tasks[i], i)
  {
    var s' := Next(s, Submit(c, ch));
    SubmitEffect(s, c, ch);
    assert CallOk(s.mem, s.calls[c]);
    SubmitCallOk(s.calls[c], s.mem, s.cfg.capacity, |s.tasks|, ch);
    forall i | 0 <= i < |s'.tasks|
      ensures RecordOk(s'.mem, s'.tasks[i], i)
    {
      if i < |s.tasks| { assert RecordOk(s.mem, s.tasks[i], i); }
    }
  }

  lemma SubmitWellFormed(s: State, c: nat, ch: Choice)
    requires WellFormed(s) && Enabled(s, Submit(c, ch))
    ensures WellFormed(Next(s, Submit(c, ch)))
  {
    var s' := Next(s, Submit(c, ch));
    SubmitRecords(s, c, ch);
    ExecBag(s.mem, CallOp(s.calls[c], |s.tasks|), ch);
    assert CallOk(s.mem, s.calls[c]);
    SubmitCallOk(s.calls[c], s.mem, s.cfg.capacity, |s.tasks|, ch);
    forall d | 0 <= d < |s'.calls| ensures CallOk(s'.mem, s'.calls[d]) { assert CallOk(s.mem, s.calls[d]); }
  }

  lemma SubmitHands(s: State, c: nat, ch: Choice)
    requires HandsMatch(s) && Enabled(s, Submit(c, ch))
    ensures HandsMatch(Next(s, Submit(c, ch)))
  {
    var s' := Next(s, Submit(c, ch));
    SubmitEffect(s, c, ch);
    forall w | 0 <= w < |s'.workers| ensures Holds(s'.tasks, w, Hand(s'.workers[w].pc)) {
      assert Holds(s.tasks, w, Hand(s.workers[w].pc));
    }
  }

  lemma SubmitCustody(s: State, c: nat, ch: Choice)
    requires InCustody(s) && Enabled(s, Submit(c, ch))
    ensures InCustody(Next(s, Submit(c, ch)))
  {
    SubmitQueuesMatch(s, c, ch);
    SubmitWellFormed(s, c, ch);
    SubmitHands(s, c, ch);
  }

  /** The tasks after a worker's step differ at most in the task it holds or held. */
  lemma FollowEffect(s: State, w: nat, ch: Choice)
    requires InCustody(s) && Enabled(s, Work(w, ch))
    ensures var s' := Next(s, Work(w, ch));
            var hand, hand' := Hand(s.workers[w].pc), Hand(s'.workers[w].pc);
            && (hand.None? && hand'.None? ==> s'.tasks == s.tasks)
            && (hand.Some? || hand'.Some? ==>
                  var t := if hand.Some? then hand.value.0 else hand'.value.0;
                  var phase := if hand'.Some? then Held(w, hand'.value.1) else Done;
                  && t.id < |s.tasks| && s.tasks[t.id].task == t
                  && s.tasks[t.id].phase == (if hand.Some? then Held(w, hand.value.1) else Queued)
                  && s'.tasks == s.tasks[t.id := Record(t, s.tasks[t.id].caller, phase,
                                                        if phase == Held(w, Taken) then 0 else 1)]
                  && (hand.None? ==> hand'.value.1 == Taken))
  {
    var me := s.workers[w];
    HandStep(me, w, |s.workers|, s.mem, ch, QueuedIds(s.tasks));
    ExecBag(s.mem, WorkerOp(w, me.pc), ch);
    var r := Exec(s.mem, WorkerOp(w, me.pc), ch).1;
    if r.Got? { QueuedRecord(s, r.t); }
    if Hand(me.pc).Some? { HeldRecord(s, w); }
  }

  /** What is on record about a task that is queued, and about one in a worker's hand. */
  lemma QueuedRecord(s: State, t: Task)
    requires InCustody(s) && t in Bag(s.mem.q)
    ensures t.id < |s.tasks| && s.tasks[t.id] == Record(t, s.tasks[t.id].caller, Queued, 0)
  {
    UniqueQueued(s, t);
    assert RecordOk(s.mem, s.tasks[t.id], t.id);
  }

  lemma HeldRecord(s: State, w: nat)
    requires InCustody(s) && w < |s.workers| && Hand(s.workers[w].pc).Some?
    ensures var (t, stage) := Hand(s.workers[w].pc).value;
            && t.id < |s.tasks|
            && s.tasks[t.id] == Record(t, s.tasks[t.id].caller, Held(w, stage), if stage == Taken then 0 else 1)
  {
    assert Holds(s.tasks, w, Hand(s.workers[w].pc));
    var id := Hand(s.workers[w].pc).value.0.id;
    assert RecordOk(s.mem, s.tasks[id], id);
  }

  lemma WorkRecords(s: State, w: nat, ch: Choice)
    requires InCustody(s) && Enabled(s, Work(w, ch))
    ensures var s' := Next(s, Work(w, ch)); forall i :: 0 <= i < |s'.tasks| ==> RecordOk(s'.mem, s'.tasks[i], i)
  {
    var s' := Next(s, Work(w, ch));
    FollowEffect(s, w, ch);
    ExecBag(s.mem, WorkerOp(w, s.workers[w].pc), ch);
    assert |s'.mem.groups| == |s.mem.groups|;
    forall i | 0 <= i < |s'.tasks|
      ensures RecordOk(s'.mem, s'.tasks[i], i)
    {
      assert RecordOk(s.mem, s.tasks[i], i);
    }
  }

  lemma WorkWellFormed(s: State, w: nat, ch: Choice)
    requires InCustody(s) && Enabled(s, Work(w, ch))
    ensures WellFormed(Next(s, Work(w, ch)))
  {
    var s' := Next(s, Work(w, ch));
    WorkRecords(s, w, ch);
    HandStep(s.workers[w], w, |s.workers|, s.mem, ch, QueuedIds(s.tasks));
    ExecBag(s.mem, WorkerOp(w, s.workers[w].pc), ch);
    assert |s'.mem.groups| == |s.mem.groups|;
    forall c | 0 <= c < |s'.calls| ensures CallOk(s'.mem, s'.calls[c]) { assert CallOk(s.mem, s.calls[c]); }
    forall v | 0 <= v < |s'.workers| ensures WorkerOk(s'.workers[v].pc) { assert WorkerOk(s.workers[v].pc); }
  }

  lemma UpdateMatches(b: multiset<Task>, tasks: seq<Record>, rec: Record)
    requires BagMatches(b, tasks)
    requires rec.task.id < |tasks| && tasks[rec.task.id].task == rec.task && rec.phase != Queued
    ensures tasks[rec.task.id].phase == Queued ==> BagMatches(b - multiset{rec.task}, tasks[rec.task.id := rec])
    ensures tasks[rec.task.id].phase != Queued ==> BagMatches(b, tasks[rec.task.id := rec])
  {
    var tasks' := tasks[rec.task.id := rec];
    forall u
      ensures IsQueued(tasks', u) <==> IsQueued(tasks, u) && u != rec.task
      ensures b[u] == Indicator(IsQueued(tasks, u))
    {
    }
  }

  lemma WorkQueuesMatch(s: State, w: nat, ch: Choice)
    requires InCustody(s) && Enabled(s, Work(w, ch))
    ensures QueuesMatch(Next(s, Work(w, ch)))
  {
    var me := s.workers[w];
    var s' := Next(s, Work(w, ch));
    FollowEffect(s, w, ch);
    HandStep(me, w, |s.workers|, s.mem, ch, QueuedIds(s.tasks));
    ExecBag(s.mem, WorkerOp(w, me.pc), ch);
    assert BagMatches(Bag(s.mem.q), s.tasks);
    var hand, hand' := Hand(me.pc), Hand(s'.workers[w].pc);
    if hand.Some? || hand'.Some? {
      var t := if hand.Some? then hand.value.0 else hand'.value.0;
      UpdateMatches(Bag(s.mem.q), s.tasks, s'.tasks[t.id]);
    }
    assert BagMatches(Bag(s'.mem.q), s'.tasks);
  }

  /** Replacing one hand, with its record, keeps hands and records in step. */
  lemma MoveHand(s: State, s': State, w: nat, t: Task)
    requires WellFormed(s) && HandsMatch(s) && w < |s.workers| && t.id < |s.tasks| && s.tasks[t.id].task == t
    requires |s'.workers| == |s.workers| && s'.workers == s.workers[w := s'.workers[w]]
    requires |s'.tasks| == |s.tasks| && s'.tasks == s.tasks[t.id := s'.tasks[t.id]] && s'.tasks[t.id].task == t
    requires var hand := Hand(s.workers[w].pc);
             s.tasks[t.id].phase == (if hand.Some? then Held(w, hand.value.1) else Queued) &&
             (hand.Some? ==> hand.value.0 == t)
    requires var hand' := Hand(s'.workers[w].pc);
             s'.tasks[t.id].phase == (if hand'.Some? then Held(w, hand'.value.1) else Done) &&
             (hand'.Some? ==> hand'.value.0 == t)
    ensures HandsMatch(s')
  {
    forall v | 0 <= v < |s'.workers|
      ensures Holds(s'.tasks, v, Hand(s'.workers[v].pc))
    {
      assert Holds(s.tasks, v, Hand(s.workers[v].pc));
    }
  }

  lemma WorkHandsMatch(s: State, w: nat, ch: Choice)
    requires InCustody(s) && Enabled(s, Work(w, ch))
    ensures HandsMatch(Next(s, Work(w, ch)))
  {
    var me := s.workers[w];
    var s' := Next(s, Work(w, ch));
    FollowEffect(s, w, ch);
    HandStep(me, w, |s.workers|, s.mem, ch, QueuedIds(s.tasks));
    var hand, hand' := Hand(me.pc), Hand(s'.workers[w].pc);
    if hand.Some? || hand'.Some? {
      MoveHand(s, s', w, if hand.Some? then hand.value.0 else hand'.value.0);
    }
  }

  lemma WorkCustody(s: State, w: nat, ch: Choice)
    requires InCustody(s) && Enabled(s, Work(w, ch))
    ensures InCustody(Next(s, Work(w, ch)))
  {
    WorkWellFormed(s, w, ch);
    WorkQueuesMatch(s, w, ch);
    WorkHandsMatch(s, w, ch);
  }

  lemma StepCustody(s: State, e: Event, s': State)
    requires InCustody(s) && Step(s, e, s')
    ensures InCustody(s')
  {
    match e
    case Submit(c, ch) => SubmitCustody(s, c, ch);
    case Work(w, ch) => WorkCustody(s, w, ch);
    case _ =>
      assert s'.mem.q == s.mem.q && s'.tasks == s.tasks && s'.workers == s.workers;
      assert |s'.mem.groups| >= |s.mem.groups|;
  }
}
