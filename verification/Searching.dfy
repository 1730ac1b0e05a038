/** When a worker's search answers `Empty`, everything queued at its start has been taken by somebody. */
module Searching {
  import opened Sums
  import opened Queues
  import opened Memory
  import opened Programs
  import opened Victims
  import opened Machine
  import opened Custody
  import opened Ledger

  predicate Avoids(xs: seq<Task>, ids: set<nat>) {
    forall t :: t in xs ==> t.id !in ids
  }

  /** How many sources a search has found empty: own deque, HIGH, NORMAL, LOW, then the victims. */
  function Progress(pc: WorkerPc): nat {
    match pc
    case Pop(_, probe) => (match probe
      case TryHigh => 1
      case TryNormal => 2
      case TryLow => 3
      case Choose => 4
      case Attempt(_) => 5
      case Steal(_) => 5
      case Missed(_) => 5
      case _ => 0)
    case LoadStop(_) => 5
    case _ => 0
  }

  /** The victims not yet found empty. */
  function Ahead(pc: WorkerPc): seq<nat> {
    match pc
    case Pop(_, Attempt(victims)) => victims
    case Pop(_, Steal(victims)) => victims
    case Pop(_, Missed(victims)) => if victims == [] then [] else victims[1..]
    case _ => []
  }

  /** Victims still on the list are peers, and no more than there are. */
  predicate VictimsOk(pc: WorkerPc, w: nat, n: nat) {
    pc.Pop? && (pc.probe.Attempt? || pc.probe.Steal? || pc.probe.Missed?) ==>
      |pc.probe.victims| < n && forall v :: v in pc.probe.victims ==> v < n && v != w
  }

  lemma VictimIsPeer(pc: WorkerPc, w: nat, n: nat)
    requires WorkerOk(pc) && VictimsOk(pc, w, n) && pc.Pop? && pc.probe.Steal?
    ensures pc.probe.victims[0] < n && pc.probe.victims[0] != w
  {
    assert pc.probe.victims[0] in pc.probe.victims;
  }

  ghost predicate SearchOk(q: Queues, w: nat, me: Worker, published: nat)
    requires w < |q.deques|
  {
    var k, ids := Progress(me.pc), me.snapshot;
    && (forall id :: id in ids ==> id < published)
    && VictimsOk(me.pc, w, |q.deques|)
    && (k >= 1 ==> q.deques[w] == [])
    && (k >= 2 ==> Avoids(q.high, ids))
    && (k >= 3 ==> Avoids(q.normal, ids))
    && (k >= 4 ==> Avoids(q.low, ids))
    && (k >= 5 ==> forall v :: 0 <= v < |q.deques| && v != w && v !in Ahead(me.pc) ==> Avoids(q.deques[v], ids))
  }

  ghost predicate SearchesOk(s: State) {
    |s.workers| == |s.mem.q.deques| &&
    forall w :: 0 <= w < |s.workers| ==> SearchOk(s.mem.q, w, s.workers[w], |s.tasks|)
  }

  // ---------- How tasks travel ----------

  /** Tasks enter injectors only by a push, and a deque only by its owner's batch from an injector. */
  lemma ExecTravel(m: Memory, op: Op, ch: Choice)
    ensures var q, q' := m.q, Exec(m, op, ch).0.q;
            && |q'.deques| == |q.deques|
            && (forall p, t :: t in Injector(q', p) ==> t in Injector(q, p) || op == Push(t))
            && (forall v, t :: 0 <= v < |q.deques| && t in q'.deques[v] ==>
                  t in q.deques[v] || (op.Batch? && op.w == v && t in Injector(q, op.p)))
  {
  }

  lemma AvoidsFrom(xs: seq<Task>, ys: seq<Task>, ids: set<nat>, op: Op)
    requires Avoids(xs, ids) && (op.Push? ==> op.t.id !in ids)
    requires forall t :: t in ys ==> t in xs || op == Push(t)
    ensures Avoids(ys, ids)
  {
  }

  lemma InjectorKeepsAvoiding(m: Memory, op: Op, ch: Choice, p: Priority, ids: set<nat>)
    requires Avoids(Injector(m.q, p), ids) && (op.Push? ==> op.t.id !in ids)
    ensures Avoids(Injector(Exec(m, op, ch).0.q, p), ids)
  {
    ExecTravel(m, op, ch);
    AvoidsFrom(Injector(m.q, p), Injector(Exec(m, op, ch).0.q, p), ids, op);
  }

  lemma DequeKeepsAvoiding(m: Memory, op: Op, ch: Choice, v: nat, ids: set<nat>)
    requires v < |m.q.deques| && Avoids(m.q.deques[v], ids)
    requires op.Batch? ==> Avoids(Injector(m.q, op.p), ids)
    ensures v < |Exec(m, op, ch).0.q.deques| && Avoids(Exec(m, op, ch).0.q.deques[v], ids)
  {
    ExecTravel(m, op, ch);
  }

  lemma EmptyDequeStays(m: Memory, op: Op, ch: Choice, w: nat)
    requires w < |m.q.deques| && m.q.deques[w] == [] && (op.Batch? ==> op.w != w)
    ensures |Exec(m, op, ch).0.q.deques| == |m.q.deques| && Exec(m, op, ch).0.q.deques[w] == []
  {
  }

  /** Sources found empty of a set of published tasks stay so under any operation that is not the searcher's own. */
  lemma OthersKeepSearch(m: Memory, op: Op, ch: Choice, w: nat, me: Worker, published: nat, published': nat)
    requires w < |m.q.deques| && SearchOk(m.q, w, me, published) && published <= published'
    requires op.Push? ==> op.t.id >= published
    requires op.Batch? ==> op.w != w
    ensures |Exec(m, op, ch).0.q.deques| == |m.q.deques| && SearchOk(Exec(m, op, ch).0.q, w, me, published')
  {
    var q' := Exec(m, op, ch).0.q;
    var k, ids := Progress(me.pc), me.snapshot;
    assert |q'.deques| == |m.q.deques| by { ExecTravel(m, op, ch); }
    assert op.Push? ==> op.t.id !in ids;
    if k >= 1 { EmptyDequeStays(m, op, ch, w); }
    if k >= 2 { InjectorKeepsAvoiding(m, op, ch, High, ids); }
    if k >= 3 { InjectorKeepsAvoiding(m, op, ch, Normal, ids); }
    if k >= 4 { InjectorKeepsAvoiding(m, op, ch, Low, ids); }
    if k >= 5 {
      forall v | 0 <= v < |q'.deques| && v != w && v !in Ahead(me.pc)
        ensures Avoids(q'.deques[v], ids)
      {
        DequeKeepsAvoiding(m, op, ch, v, ids);
      }
    }
  }

  /** There is still a victim to try before the search ends. */
  predicate PeersAhead(pc: WorkerPc, n: nat) {
    pc.Pop? &&
    match pc.probe
    case Choose => n > 1
    case Attempt(victims) => victims != []
    case Steal(victims) => victims != []
    case Missed(victims) => |victims| > 1
    case _ => false
  }

  /** The searcher's own step: each probe that answers empty extends what is known, and success ends the search. */
  lemma OwnSearch(m: Memory, ch: Choice, w: nat, me: Worker, published: nat, queued: set<nat>)
    requires w < |m.q.deques| && SearchOk(m.q, w, me, published) && WorkerOk(me.pc)
    requires forall id :: id in queued ==> id < published
    ensures var (m', r) := Exec(m, WorkerOp(w, me.pc), ch);
            |m'.q.deques| == |m.q.deques| &&
            SearchOk(m'.q, w, WorkerAfter(me, w, |m.q.deques|, r, queued), published)
  {
    if AtPeers(me.pc) { OwnPeers(m, ch, w, me, published, queued); }
    else { OwnProbe(m, ch, w, me, published, queued); }
  }

  lemma OwnProbe(m: Memory, ch: Choice, w: nat, me: Worker, published: nat, queued: set<nat>)
    requires w < |m.q.deques| && SearchOk(m.q, w, me, published) && !AtPeers(me.pc)
    requires forall id :: id in queued ==> id < published
    ensures var (m', r) := Exec(m, WorkerOp(w, me.pc), ch);
            |m'.q.deques| == |m.q.deques| &&
            SearchOk(m'.q, w, WorkerAfter(me, w, |m.q.deques|, r, queued), published)
  {
    if Sequel(me.pc).None? {
      NoProgress(me, w, |m.q.deques|, m, ch, queued);
    } else {
      ProbeFound(me, w, |m.q.deques|, m, ch, queued);
    }
    assert |Exec(m, WorkerOp(w, me.pc), ch).0.q.deques| == |m.q.deques| by { ExecTravel(m, WorkerOp(w, me.pc), ch); }
  }

  /** The next of the first four sources, for a search that is looking into one of them. */
  function Sequel(pc: WorkerPc): Option<Probe> {
    match pc
    case Pop(_, TryLocal) => Some(TryHigh)
    case Pop(_, TryHigh) => Some(TryNormal)
    case Pop(_, TryNormal) => Some(TryLow)
    case Pop(_, TryLow) => Some(Choose)
    case _ => None
  }

  lemma NoProgress(me: Worker, w: nat, n: nat, m: Memory, ch: Choice, queued: set<nat>)
    requires !AtPeers(me.pc) && Sequel(me.pc).None?
    ensures var r := Exec(m, WorkerOp(w, me.pc), ch).1;
            var me' := WorkerAfter(me, w, n, r, queued);
            Progress(me'.pc) == 0 && VictimsOk(me'.pc, w, n) && (me'.snapshot == me.snapshot || me'.snapshot == queued)
  {
  }

  lemma ProbeFound(me: Worker, w: nat, n: nat, m: Memory, ch: Choice, queued: set<nat>)
    requires Sequel(me.pc).Some? && w < |m.q.deques|
    ensures var (m', r) := Exec(m, WorkerOp(w, me.pc), ch);
            var me' := WorkerAfter(me, w, n, r, queued);
            && VictimsOk(me'.pc, w, n) && me'.snapshot == me.snapshot
            && (Progress(me'.pc) > 0 ==>
                  && m' == m && me'.pc == Pop(me.pc.site, Sequel(me.pc).value)
                  && (me.pc.probe.TryLocal? ==> m.q.deques[w] == [])
                  && (me.pc.probe.TryHigh? ==> m.q.high == [])
                  && (me.pc.probe.TryNormal? ==> m.q.normal == [])
                  && (me.pc.probe.TryLow? ==> m.q.low == []))
  {
  }

  lemma OwnPeers(m: Memory, ch: Choice, w: nat, me: Worker, published: nat, queued: set<nat>)
    requires w < |m.q.deques| && SearchOk(m.q, w, me, published) && WorkerOk(me.pc) && AtPeers(me.pc)
    ensures var (m', r) := Exec(m, WorkerOp(w, me.pc), ch);
            |m'.q.deques| == |m.q.deques| &&
            SearchOk(m'.q, w, WorkerAfter(me, w, |m.q.deques|, r, queued), published)
  {
    match me.pc.probe
    case Choose => ChooseFound(m, w, me, published);
    case Steal(_) => StealFound(m, ch, w, me, published);
    case Missed(victims) => assert forall v :: v in victims[1..] ==> v in victims;
    case _ =>
  }

  lemma ChooseFound(m: Memory, w: nat, me: Worker, published: nat)
    requires w < |m.q.deques| && SearchOk(m.q, w, me, published) && me.pc.Pop? && me.pc.probe.Choose?
    ensures var n := |m.q.deques|;
            var me' := me.(pc := NextVictim(me.pc.site, VictimList(n, w, me.cursor)));
            SearchOk(m.q, w, me', published)
  {
    VictimListIsPermutation(|m.q.deques|, w, me.cursor);
  }

  lemma StealFound(m: Memory, ch: Choice, w: nat, me: Worker, published: nat)
    requires w < |m.q.deques| && SearchOk(m.q, w, me, published) && WorkerOk(me.pc)
    requires me.pc.Pop? && me.pc.probe.Steal?
    ensures var (m', r) := Exec(m, WorkerOp(w, me.pc), ch);
            r.Empty? ==>
              (m' == m &&
               forall v :: 0 <= v < |m.q.deques| && v != w && v !in me.pc.probe.victims[1..] ==>
                 Avoids(m.q.deques[v], me.snapshot))
  {
    var victims := me.pc.probe.victims;
    var (m', r) := Exec(m, WorkerOp(w, me.pc), ch);
    if r.Empty? {
      forall v | 0 <= v < |m.q.deques| && v != w && v !in victims[1..]
        ensures Avoids(m.q.deques[v], me.snapshot)
      {
        if v == victims[0] {
          assert m.q.deques[v] == [];
        } else {
          assert victims == [victims[0]] + victims[1..];
          assert v !in victims;
        }
      }
    }
  }

  lemma StepSearches(s: State, e: Event, s': State)
    requires InCustody(s) && SearchesOk(s) && Step(s, e, s')
    ensures SearchesOk(s')
  {
    match e
    case Submit(c, ch) =>
      var op := CallOp(s.calls[c], |s.tasks|);
      SubmitEffect(s, c, ch);
      ExecTravel(s.mem, op, ch);
      forall v | 0 <= v < |s'.workers| ensures SearchOk(s'.mem.q, v, s'.workers[v], |s'.tasks|) {
        OthersKeepSearch(s.mem, op, ch, v, s.workers[v], |s.tasks|, |s'.tasks|);
      }
    case Work(w, ch) =>
      WorkSearches(s, w, ch);
    case _ =>
      assert s'.mem.q == s.mem.q && s'.tasks == s.tasks && s'.workers == s.workers;
  }

  lemma OwnBatch(pc: WorkerPc, w: nat)
    ensures WorkerOp(w, pc).Batch? ==> WorkerOp(w, pc).w == w
    ensures !WorkerOp(w, pc).Push?
  {
  }

  lemma WorkSearches(s: State, w: nat, ch: Choice)
    requires InCustody(s) && SearchesOk(s) && Enabled(s, Work(w, ch))
    ensures SearchesOk(Next(s, Work(w, ch)))
  {
    var s' := Next(s, Work(w, ch));
    var op := WorkerOp(w, s.workers[w].pc);
    FollowEffect(s, w, ch);
    assert |s'.tasks| == |s.tasks|;
    ExecTravel(s.mem, op, ch);
    OwnBatch(s.workers[w].pc, w);
    assert WorkerOk(s.workers[w].pc);
    forall v | 0 <= v < |s'.workers|
      ensures SearchOk(s'.mem.q, v, s'.workers[v], |s'.tasks|)
    {
      if v == w {
        OwnSearch(s.mem, ch, w, s.workers[w], |s.tasks|, QueuedIds(s.tasks));
      } else {
        OthersKeepSearch(s.mem, op, ch, v, s.workers[v], |s.tasks|, |s.tasks|);
      }
    }
  }

  lemma {:induction false} RunSearches(r: seq<State>, es: seq<Event>, i: nat)
    requires Run(r, es) && Init(r[0]) && i < |r|
    ensures SearchesOk(r[i])
  {
    if i > 0 {
      RunSearches(r, es, i - 1);
      RunInvariant(r, es, i - 1);
      assert StepAt(r, es, i - 1);
      StepSearches(r[i - 1], es[i - 1], r[i]);
    }
  }

  // ---------- The claim ----------

  /** At the point where a search has answered `Empty`, nothing in its snapshot is queued. */
  lemma EmptyMeansTaken(s: State, w: nat, id: nat)
    requires InCustody(s) && SearchesOk(s) && w < |s.workers| && s.workers[w].pc.LoadStop?
    requires id in s.workers[w].snapshot
    ensures id < |s.tasks| && s.tasks[id].phase != Queued
  {
    var q, ids := s.mem.q, s.workers[w].snapshot;
    assert SearchOk(q, w, s.workers[w], |s.tasks|);
    var t := s.tasks[id].task;
    assert RecordOk(s.mem, s.tasks[id], id);
    assert Bag(q)[t] == Indicator(IsQueued(s.tasks, t));
    InBag(q, t);
    forall v | 0 <= v < |q.deques| ensures t !in q.deques[v] {
      if v != w { assert Avoids(q.deques[v], ids); }
    }
  }

  /** A search is about to start. */
  predicate Starts(pc: WorkerPc) {
    pc.Pop? && pc.probe.Enter?
  }

  /** Between the start of a search and its end the snapshot is kept. */
  lemma {:induction false} SnapshotKept(r: seq<State>, es: seq<Event>, i: nat, j: nat, w: nat)
    requires Run(r, es) && i <= j < |r| && w < |r[i].workers|
    requires forall k :: i <= k < j ==> w < |r[k].workers| ==> !Starts(r[k].workers[w].pc)
    ensures w < |r[j].workers| && r[j].workers[w].snapshot == r[i].workers[w].snapshot
  {
    if i < j {
      SnapshotKept(r, es, i, j - 1, w);
      assert StepAt(r, es, j - 1);
      SnapshotStep(r[j - 1], es[j - 1], r[j], w);
    }
  }

  lemma SnapshotStep(s: State, e: Event, s': State, w: nat)
    requires Step(s, e, s') && w < |s.workers|
    requires !Starts(s.workers[w].pc)
    ensures w < |s'.workers| && s'.workers[w].snapshot == s.workers[w].snapshot
  {
    if e.Work? && e.w == w {
      var r := Exec(s.mem, WorkerOp(w, s.workers[w].pc), e.ch).1;
      SnapshotProgram(s.workers[w], w, |s.workers|, r, QueuedIds(s.tasks));
    }
  }

  lemma SnapshotProgram(me: Worker, w: nat, n: nat, r: Response, queued: set<nat>)
    requires !Starts(me.pc)
    ensures WorkerAfter(me, w, n, r, queued).snapshot == me.snapshot
  {
  }

  lemma TakenStep(s: State, e: Event, s': State, id: nat)
    requires InCustody(s) && Step(s, e, s') && id < |s.tasks| && s.tasks[id].phase != Queued
    ensures id < |s'.tasks| && s'.tasks[id].phase != Queued
  {
    if e.Submit? { SubmitEffect(s, e.c, e.ch); }
    else if e.Work? { FollowEffect(s, e.w, e.ch); }
  }

  /** A task that has been taken is never queued again. */
  lemma {:induction false} StaysTaken(r: seq<State>, es: seq<Event>, i: nat, j: nat, id: nat)
    requires Run(r, es) && Init(r[0]) && i <= j < |r| && id < |r[i].tasks| && r[i].tasks[id].phase != Queued
    ensures id < |r[j].tasks| && r[j].tasks[id].phase != Queued
  {
    if i < j {
      StaysTaken(r, es, i, j - 1, id);
      RunInvariant(r, es, j - 1);
      assert StepAt(r, es, j - 1);
      TakenStep(r[j - 1], es[j - 1], r[j], id);
    }
  }

  /**
   * Soundness of `Empty` under any interleaving: if worker w starts a search at event i and that same search has
   * answered `Empty` in state j, then no task that was queued anywhere in state i is still queued in state j.
   */
  lemma EmptyIsSound(r: seq<State>, es: seq<Event>, i: nat, j: nat, w: nat, id: nat)
    requires Run(r, es) && Init(r[0]) && i < j < |r| && es[i].Work? && es[i].w == w
    requires w < |r[i].workers| && Starts(r[i].workers[w].pc)
    requires forall k :: i < k < j ==> w < |r[k].workers| ==> !Starts(r[k].workers[w].pc)
    requires w < |r[j].workers| && r[j].workers[w].pc.LoadStop?
    requires id < |r[i].tasks| && r[i].tasks[id].phase == Queued
    ensures id < |r[j].tasks| && r[j].tasks[id].phase != Queued
  {
    assert StepAt(r, es, i);
    assert r[i + 1].workers[w].snapshot == QueuedIds(r[i].tasks);
    SnapshotKept(r, es, i + 1, j, w);
    RunInvariant(r, es, j);
    RunSearches(r, es, j);
    EmptyMeansTaken(r[j], w, id);
  }
}
