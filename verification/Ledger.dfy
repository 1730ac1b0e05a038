/** Every counter of the scheduler equals, in every state, the sum of what the threads and tasks still owe it. */
module Ledger {
  import opened Sums
  import opened Queues
  import opened Memory
  import opened Programs
  import opened Machine
  import opened Custody

  // ---------- What each thread and task contributes ----------

  /** Between reserving a slot and publishing or releasing it. */
  predicate HasSlot(pc: CallPc) {
    || pc.Recheck? || pc.Release? || pc.GroupCheck? || pc.GroupAdd? || pc.GroupRecheck? || pc.GroupUndo?
    || pc.FinalCheck? || pc.FinalRelease? || pc.Publish?
  }

  /** Between registering with the group and publishing or withdrawing. */
  predicate HasEntry(pc: CallPc) {
    pc.GroupRecheck? || pc.GroupUndo? || pc.FinalCheck? || pc.FinalRelease? || pc.FinalUndo? || pc.Publish?
  }

  function Reserved(call: Call): int {
    Indicator(HasSlot(call.pc))
  }

  function Registered(g: nat): Call -> int {
    (call: Call) => Indicator(call.group == Some(g) && HasEntry(call.pc))
  }

  function Unrecorded(call: Call): int {
    Indicator(call.pc.NoteSubmit?)
  }

  function Published(call: Call): int {
    Indicator(PublishedId(call.pc).Some?)
  }

  function Rejected(call: Call): int {
    Indicator(call.pc == Returned(QueueFull))
  }

  function WaitingPhase(p: Phase): int {
    Indicator(p == Queued)
  }

  /** Taken out of the queues, slot not yet given back. */
  function ExecutingPhase(p: Phase): int {
    Indicator(p.Held? && p.stage != SlotFreed)
  }

  function LivePhase(p: Phase): int {
    WaitingPhase(p) + ExecutingPhase(p)
  }

  /** Taken out of the queues, completion not yet counted. */
  function UncountedPhase(p: Phase): int {
    Indicator(p.Held? && (p.stage == Taken || p.stage == Ran))
  }

  function CountedPhase(p: Phase): int {
    Indicator(p == Done || (p.Held? && (p.stage == Recorded || p.stage == SlotFreed)))
  }

  /** Its slot has been given back. */
  predicate Finished(p: Phase) {
    p == Done || (p.Held? && p.stage == SlotFreed)
  }

  function Waiting(rec: Record): int { WaitingPhase(rec.phase) }

  function Executing(rec: Record): int { ExecutingPhase(rec.phase) }

  function Uncounted(rec: Record): int { UncountedPhase(rec.phase) }

  function Counted(rec: Record): int { CountedPhase(rec.phase) }

  function Member(g: nat): Record -> int {
    (rec: Record) => Indicator(rec.task.group == Some(g) && rec.phase != Done)
  }

  predicate IsAsleep(pc: WorkerPc) {
    || (pc.Pop? && pc.site == Asleep) || (pc.Stolen? && pc.site == Asleep) || (pc.LoadStop? && pc.site == Asleep)
    || (pc.LoadDrained? && pc.site == Asleep) || pc.Blocked? || pc.Retract?
  }

  function Sleeper(me: Worker): int {
    Indicator(IsAsleep(me.pc))
  }

  function Stealing(me: Worker): int {
    Indicator(me.pc.Stolen? || (me.pc.Pop? && (me.pc.probe.Steal? || me.pc.probe.Missed?)))
  }

  function PeerRetries(me: Worker): int {
    me.peerRetries
  }

  function Detours(me: Worker): int {
    me.detours
  }

  // ---------- The balances ----------

  ghost predicate FlightBalance(s: State) {
    s.mem.inFlight == Sum(s.calls, Reserved) + Sum(s.tasks, Waiting) + Sum(s.tasks, Executing)
  }

  ghost predicate GroupBalance(s: State, g: nat)
    requires g < |s.mem.groups|
  {
    s.mem.groups[g].count == Sum(s.calls, Registered(g)) + Sum(s.tasks, Member(g))
  }

  ghost predicate GroupsBalance(s: State) {
    forall g :: 0 <= g < |s.mem.groups| ==> GroupBalance(s, g)
  }

  ghost predicate StatsBalance(s: State) {
    && s.mem.stats.submitted + Sum(s.calls, Unrecorded) == |s.tasks|
    && s.mem.stats.completed == Sum(s.tasks, Counted)
    && s.mem.stats.rejectedFull == Sum(s.calls, Rejected)
    && Size(s.mem.q) == Sum(s.tasks, Waiting)
    && |s.tasks| == Sum(s.calls, Published)
  }

  ghost predicate WorkerBalance(s: State) {
    && s.mem.sleeping == Sum(s.workers, Sleeper)
    && s.mem.stats.attempted
       == s.mem.stats.succeeded + s.mem.stats.failures + Sum(s.workers, PeerRetries) + Sum(s.workers, Stealing)
    && s.mem.stats.fairnessYields == Sum(s.workers, Detours)
  }

  function PublishedId(pc: CallPc): Option<nat> {
    match pc
    case NoteSubmit(id) => Some(id)
    case WakeCheck(id) => Some(id)
    case Notify(id) => Some(id)
    case Returned(Accepted(id)) => Some(id)
    case _ => None
  }

  ghost predicate CallPublished(s: State, c: nat)
    requires c < |s.calls|
  {
    var id := PublishedId(s.calls[c].pc);
    id.Some? ==>
      && id.value < |s.tasks| && s.tasks[id.value].caller == c
      && s.tasks[id.value].task == Task(id.value, s.calls[c].priority, s.calls[c].group)
  }

  /** Calls past their publication and published tasks correspond one to one. */
  ghost predicate Publications(s: State) {
    && (forall c :: 0 <= c < |s.calls| ==> CallPublished(s, c))
    && (forall i :: 0 <= i < |s.tasks| ==>
          s.tasks[i].caller < |s.calls| && PublishedId(s.calls[s.tasks[i].caller].pc) == Some(i))
  }

  ghost predicate InBalance(s: State) {
    FlightBalance(s) && GroupsBalance(s) && StatsBalance(s) && WorkerBalance(s) && Publications(s)
  }

  /** A count of zero means that nobody holds a slot and every task has given its own back. */
  lemma ZeroMeansFinished(s: State)
    requires FlightBalance(s) && s.mem.inFlight == 0
    ensures forall c :: 0 <= c < |s.calls| ==> !HasSlot(s.calls[c].pc)
    ensures forall i :: 0 <= i < |s.tasks| ==> Finished(s.tasks[i].phase)
  {
    SumNonNegative(s.calls, Reserved);
    SumNonNegative(s.tasks, Waiting);
    SumNonNegative(s.tasks, Executing);
    forall c | 0 <= c < |s.calls| ensures !HasSlot(s.calls[c].pc) { assert Reserved(s.calls[c]) == 0; }
    forall i | 0 <= i < |s.tasks| ensures Finished(s.tasks[i].phase) {
      assert Waiting(s.tasks[i]) == 0 && Executing(s.tasks[i]) == 0;
    }
  }

  // ---------- Initial state ----------

  lemma InitBalance(s: State)
    requires Init(s)
    ensures InBalance(s)
  {
    SumConstant(s.workers, Sleeper, 0);
    SumConstant(s.workers, Stealing, 0);
    SumConstant(s.workers, PeerRetries, 0);
    SumConstant(s.workers, Detours, 0);
    SumConstant(s.mem.q.deques, Length, 0);
  }

  // ---------- Sums across a step ----------

  lemma CallSum(s: State, c: nat, ch: Choice, f: Call -> int)
    requires Enabled(s, Submit(c, ch))
    ensures var s' := Next(s, Submit(c, ch));
            Sum(s'.calls, f) == Sum(s.calls, f) - f(s.calls[c]) + f(s'.calls[c])
  {
    SumUpdate(s.calls, c, Next(s, Submit(c, ch)).calls[c], f);
  }

  lemma PublishSum(s: State, c: nat, ch: Choice, f: Record -> int)
    requires Enabled(s, Submit(c, ch))
    ensures var s' := Next(s, Submit(c, ch));
            Sum(s'.tasks, f) == Sum(s.tasks, f) + if s.calls[c].pc.Publish? then f(s'.tasks[|s.tasks|]) else 0
  {
    if s.calls[c].pc.Publish? {
      SumSnoc(s.tasks, Next(s, Submit(c, ch)).tasks[|s.tasks|], f);
    }
  }

  lemma WorkerSum(s: State, w: nat, ch: Choice, f: Worker -> int)
    requires Enabled(s, Work(w, ch))
    ensures var s' := Next(s, Work(w, ch));
            Sum(s'.workers, f) == Sum(s.workers, f) - f(s.workers[w]) + f(s'.workers[w])
  {
    SumUpdate(s.workers, w, Next(s, Work(w, ch)).workers[w], f);
  }

  /** The history of the task in a worker's hand before and after one step; `Done` twice when there is none. */
  function PhaseBefore(w: nat, hand: Option<(Task, Stage)>, r: Response): Phase {
    if hand.Some? then Held(w, hand.value.1) else if r.Got? then Queued else Done
  }

  function PhaseAfter(w: nat, hand: Option<(Task, Stage)>): Phase {
    if hand.Some? then Held(w, hand.value.1) else Done
  }

  function WorkResponse(s: State, w: nat, ch: Choice): Response
    requires w < |s.workers|
  {
    Exec(s.mem, WorkerOp(w, s.workers[w].pc), ch).1
  }

  /** A worker's step changes a sum over the tasks by what its own task contributed before and contributes after. */
  lemma TaskSum(s: State, w: nat, ch: Choice, f: Record -> int, measure: Phase -> int)
    requires InCustody(s) && Enabled(s, Work(w, ch))
    requires forall rec: Record :: f(rec) == measure(rec.phase)
    ensures var s' := Next(s, Work(w, ch));
            Sum(s'.tasks, f) == Sum(s.tasks, f)
              - measure(PhaseBefore(w, Hand(s.workers[w].pc), WorkResponse(s, w, ch)))
              + measure(PhaseAfter(w, Hand(s'.workers[w].pc)))
  {
    FollowEffect(s, w, ch);
    HandStep(s.workers[w], w, |s.workers|, s.mem, ch, QueuedIds(s.tasks));
    var s' := Next(s, Work(w, ch));
    var hand, hand' := Hand(s.workers[w].pc), Hand(s'.workers[w].pc);
    if hand.Some? || hand'.Some? {
      var id := (if hand.Some? then hand.value.0 else hand'.value.0).id;
      SumUpdate(s.tasks, id, s'.tasks[id], f);
    }
  }

  // ---------- One operation of each program ----------

  /** A submission moves the slot count and its own statistics exactly as its position says. */
  lemma CallDelta(call: Call, m: Memory, capacity: nat, id: nat, ch: Choice)
    ensures var (m', r) := Exec(m, CallOp(call, id), ch);
            var call' := call.(pc := CallAfter(call, capacity, id, r));
            && m'.inFlight == m.inFlight + Reserved(call') - Reserved(call) + Indicator(call.pc.Publish?)
            && m'.stats.submitted
               == m.stats.submitted + Unrecorded(call) - Unrecorded(call') + Indicator(call.pc.Publish?)
            && m'.stats.rejectedFull == m.stats.rejectedFull + Rejected(call') - Rejected(call)
            && m'.stats == m.stats.(submitted := m'.stats.submitted, rejectedFull := m'.stats.rejectedFull)
            && m'.sleeping == m.sleeping
            && Published(call') == Published(call) + Indicator(call.pc.Publish?)
  {
  }

  lemma CallGroupDelta(call: Call, m: Memory, capacity: nat, id: nat, ch: Choice, g: nat)
    requires CallOk(m, call) && g < |m.groups|
    ensures var (m', r) := Exec(m, CallOp(call, id), ch);
            var call' := call.(pc := CallAfter(call, capacity, id, r));
            && |m'.groups| == |m.groups|
            && m'.groups[g].count == m.groups[g].count + Registered(g)(call') - Registered(g)(call)
                                     + Indicator(call.pc.Publish? && call.group == Some(g))
  {
  }

  // The effect of an operation on one counter, and the program of a worker for whatever answer, each on its own.

  /** Where a worker deals with its peers. */
  predicate AtPeers(pc: WorkerPc) {
    pc.Pop? && (pc.probe.Choose? || pc.probe.Attempt? || pc.probe.Steal? || pc.probe.Missed?)
  }

  lemma FlightOp(m: Memory, op: Op, ch: Choice)
    requires !op.AddInFlight? && !op.SwapInFlight?
    ensures Exec(m, op, ch).0.inFlight == m.inFlight - Indicator(op == SubInFlight)
  {
  }

  lemma WorkerFlight(pc: WorkerPc, w: nat)
    ensures !WorkerOp(w, pc).AddInFlight? && !WorkerOp(w, pc).SwapInFlight?
  {
  }

  /** The phases of the task in hand before and after a step that is answered with r. */
  function Phases(me: Worker, w: nat, n: nat, r: Response, queued: set<nat>): (Phase, Phase) {
    (PhaseBefore(w, Hand(me.pc), r), PhaseAfter(w, Hand(WorkerAfter(me, w, n, r, queued).pc)))
  }

  /** A task goes through its stages at the operations that account for it. */
  lemma HandProgram(me: Worker, w: nat, n: nat, r: Response, queued: set<nat>)
    requires Fits(WorkerOp(w, me.pc), r)
    ensures var (before, after) := Phases(me, w, n, r, queued);
            && LivePhase(after) - LivePhase(before) == -Indicator(WorkerOp(w, me.pc) == SubInFlight)
            && CountedPhase(after) - CountedPhase(before) == Indicator(WorkerOp(w, me.pc) == Count(Completed))
  {
    if AtPeers(me.pc) { PeerHand(me, w, n, r, queued); }
    else if me.pc.Pop? { ProbeHand(me, w, n, r, queued); }
    else { OtherHand(me, w, n, r, queued); }
  }

  lemma PeerHand(me: Worker, w: nat, n: nat, r: Response, queued: set<nat>)
    requires Fits(WorkerOp(w, me.pc), r) && AtPeers(me.pc)
    ensures Phases(me, w, n, r, queued) == if r.Got? then (Queued, Held(w, Taken)) else (Done, Done)
  {
  }

  lemma ProbeHand(me: Worker, w: nat, n: nat, r: Response, queued: set<nat>)
    requires Fits(WorkerOp(w, me.pc), r) && me.pc.Pop? && !AtPeers(me.pc)
    ensures Phases(me, w, n, r, queued) == if r.Got? then (Queued, Held(w, Taken)) else (Done, Done)
  {
  }

  lemma OtherHand(me: Worker, w: nat, n: nat, r: Response, queued: set<nat>)
    requires Fits(WorkerOp(w, me.pc), r) && !me.pc.Pop?
    ensures var (before, after) := Phases(me, w, n, r, queued);
            && LivePhase(after) - LivePhase(before) == -Indicator(WorkerOp(w, me.pc) == SubInFlight)
            && CountedPhase(after) - CountedPhase(before) == Indicator(WorkerOp(w, me.pc) == Count(Completed))
  {
  }

  /** A worker moves the slot count exactly as its hand says. */
  lemma HandSlotDelta(me: Worker, w: nat, n: nat, m: Memory, ch: Choice, queued: set<nat>)
    ensures var (m', r) := Exec(m, WorkerOp(w, me.pc), ch);
            var me' := WorkerAfter(me, w, n, r, queued);
            var before, after := PhaseBefore(w, Hand(me.pc), r), PhaseAfter(w, Hand(me'.pc));
            m'.inFlight == m.inFlight + LivePhase(after) - LivePhase(before)
  {
    WorkerFlight(me.pc, w);
    FlightOp(m, WorkerOp(w, me.pc), ch);
    ExecShape(m, WorkerOp(w, me.pc), ch);
    HandProgram(me, w, n, Exec(m, WorkerOp(w, me.pc), ch).1, queued);
  }

  /** And the completion count. */
  lemma HandCountDelta(me: Worker, w: nat, n: nat, m: Memory, ch: Choice, queued: set<nat>)
    ensures var (m', r) := Exec(m, WorkerOp(w, me.pc), ch);
            var me' := WorkerAfter(me, w, n, r, queued);
            var before, after := PhaseBefore(w, Hand(me.pc), r), PhaseAfter(w, Hand(me'.pc));
            m'.stats.completed == m.stats.completed + CountedPhase(after) - CountedPhase(before)
  {
    CompletedOp(m, WorkerOp(w, me.pc), ch);
    ExecShape(m, WorkerOp(w, me.pc), ch);
    HandProgram(me, w, n, Exec(m, WorkerOp(w, me.pc), ch).1, queued);
  }

  lemma CompletedOp(m: Memory, op: Op, ch: Choice)
    ensures Exec(m, op, ch).0.stats.completed == m.stats.completed + Indicator(op == Count(Completed))
    ensures Exec(m, op, ch).0.stats.submitted == m.stats.submitted + Indicator(op == Count(Submitted))
    ensures Exec(m, op, ch).0.stats.rejectedFull == m.stats.rejectedFull + Indicator(op == Count(RejectedFull))
  {
  }

  /** A worker never touches the submission statistics. */
  lemma WorkerCounters(pc: WorkerPc, w: nat)
    ensures WorkerOp(w, pc) != Count(Submitted) && WorkerOp(w, pc) != Count(RejectedFull)
  {
  }

  lemma HandGroupDelta(me: Worker, w: nat, n: nat, m: Memory, ch: Choice, queued: set<nat>, g: nat)
    requires WorkerOk(me.pc) && g < |m.groups|
    ensures var (m', r) := Exec(m, WorkerOp(w, me.pc), ch);
            var me' := WorkerAfter(me, w, n, r, queued);
            && |m'.groups| == |m.groups|
            && m'.groups[g].count
               == m.groups[g].count - Indicator(LetsGo(me.pc, me'.pc) && Hand(me.pc).value.0.group == Some(g))
  {
    GroupOp(m, WorkerOp(w, me.pc), ch, g);
    ExecShape(m, WorkerOp(w, me.pc), ch);
    GroupProgram(me, w, n, Exec(m, WorkerOp(w, me.pc), ch).1, queued, g);
  }

  lemma GroupOp(m: Memory, op: Op, ch: Choice, g: nat)
    requires g < |m.groups|
    ensures var m' := Exec(m, op, ch).0;
            && |m'.groups| == |m.groups|
            && m'.groups[g].count == m.groups[g].count + Indicator(op == AddGroup(g)) - Indicator(op == SubGroup(g))
  {
  }

  /** A worker lets go of a task of a group with the operation that takes it off the group's count. */
  lemma GroupProgram(me: Worker, w: nat, n: nat, r: Response, queued: set<nat>, g: nat)
    requires WorkerOk(me.pc) && Fits(WorkerOp(w, me.pc), r)
    ensures !WorkerOp(w, me.pc).AddGroup?
    ensures var pc' := WorkerAfter(me, w, n, r, queued).pc;
            WorkerOp(w, me.pc) == SubGroup(g) <==> LetsGo(me.pc, pc') && Hand(me.pc).value.0.group == Some(g)
  {
    if Hand(me.pc).Some? {
      match me.pc
      case ReleaseSlot(_) =>
      case ReleaseGroup(_) =>
      case _ =>
    }
  }

  predicate LetsGo(pc: WorkerPc, pc': WorkerPc) {
    Hand(pc).Some? && Hand(pc').None?
  }

  lemma SleepOp(m: Memory, op: Op, ch: Choice)
    ensures Exec(m, op, ch).0.sleeping == m.sleeping + Indicator(op == AddSleeping) - Indicator(op == SubSleeping)
  {
  }

  /** A worker enters and leaves its sleeping section with the two operations, whatever they answer. */
  lemma SleepProgram(me: Worker, w: nat, n: nat, r: Response, queued: set<nat>)
    ensures Sleeper(WorkerAfter(me, w, n, r, queued)) - Sleeper(me)
            == Indicator(WorkerOp(w, me.pc) == AddSleeping) - Indicator(WorkerOp(w, me.pc) == SubSleeping)
  {
    if AtPeers(me.pc) { PeerSite(me, w, n, r, queued); }
    else if me.pc.Pop? { ProbeSite(me, w, n, r, queued); }
  }

  /** A search neither begins nor ends the sleeping section. */
  lemma PeerSite(me: Worker, w: nat, n: nat, r: Response, queued: set<nat>)
    requires AtPeers(me.pc)
    ensures IsAsleep(WorkerAfter(me, w, n, r, queued).pc) == (me.pc.site == Asleep)
  {
  }

  lemma ProbeSite(me: Worker, w: nat, n: nat, r: Response, queued: set<nat>)
    requires me.pc.Pop? && !AtPeers(me.pc)
    ensures IsAsleep(WorkerAfter(me, w, n, r, queued).pc) == (me.pc.site == Asleep)
  {
  }

  lemma SleepDelta(me: Worker, w: nat, n: nat, m: Memory, ch: Choice, queued: set<nat>)
    ensures var (m', r) := Exec(m, WorkerOp(w, me.pc), ch);
            var me' := WorkerAfter(me, w, n, r, queued);
            m'.sleeping == m.sleeping + Sleeper(me') - Sleeper(me)
  {
    SleepOp(m, WorkerOp(w, me.pc), ch);
    SleepProgram(me, w, n, Exec(m, WorkerOp(w, me.pc), ch).1, queued);
  }

  lemma StealOp(m: Memory, op: Op, ch: Choice)
    ensures Exec(m, op, ch).0.stats.attempted == m.stats.attempted + Indicator(op == Count(Attempted))
    ensures Exec(m, op, ch).0.stats.succeeded == m.stats.succeeded + Indicator(op == Count(Succeeded))
    ensures Exec(m, op, ch).0.stats.failures == m.stats.failures + Indicator(op == Count(Failures))
    ensures Exec(m, op, ch).0.stats.fairnessYields == m.stats.fairnessYields + Indicator(op == Count(Yields))
  {
  }

  /** What an operation does to attempts that have not ended in a success or a failure. */
  function OpenSteal(op: Op): int {
    Indicator(op == Count(Attempted)) - Indicator(op == Count(Succeeded)) - Indicator(op == Count(Failures))
  }

  /** An attempt is counted when a steal begins, and again when it ends, except by `Retry`. */
  lemma StealProgram(me: Worker, w: nat, n: nat, r: Response, queued: set<nat>)
    requires WorkerOk(me.pc)
    ensures var me' := WorkerAfter(me, w, n, r, queued);
            PeerRetries(me') - PeerRetries(me) + Stealing(me') - Stealing(me) == OpenSteal(WorkerOp(w, me.pc))
  {
    if AtPeers(me.pc) { PeerSteal(me, w, n, r, queued); }
    else if me.pc.Pop? { ProbeSteal(me, w, n, r, queued); }
  }

  lemma PeerSteal(me: Worker, w: nat, n: nat, r: Response, queued: set<nat>)
    requires WorkerOk(me.pc) && AtPeers(me.pc)
    ensures var me' := WorkerAfter(me, w, n, r, queued);
            PeerRetries(me') - PeerRetries(me) + Stealing(me') - Stealing(me) == OpenSteal(WorkerOp(w, me.pc))
  {
  }

  lemma ProbeSteal(me: Worker, w: nat, n: nat, r: Response, queued: set<nat>)
    requires me.pc.Pop? && !AtPeers(me.pc)
    ensures var me' := WorkerAfter(me, w, n, r, queued);
            PeerRetries(me') == PeerRetries(me) && Stealing(me') == Stealing(me) == 0
  {
  }

  lemma StealDelta(me: Worker, w: nat, n: nat, m: Memory, ch: Choice, queued: set<nat>)
    requires WorkerOk(me.pc)
    ensures var (m', r) := Exec(m, WorkerOp(w, me.pc), ch);
            var me' := WorkerAfter(me, w, n, r, queued);
            m'.stats.attempted - m'.stats.succeeded - m'.stats.failures
            == m.stats.attempted - m.stats.succeeded - m.stats.failures
               + PeerRetries(me') - PeerRetries(me) + Stealing(me') - Stealing(me)
  {
    StealOp(m, WorkerOp(w, me.pc), ch);
    StealProgram(me, w, n, Exec(m, WorkerOp(w, me.pc), ch).1, queued);
  }

  /** The fairness path is entered by counting it. */
  lemma YieldProgram(me: Worker, w: nat, n: nat, r: Response, queued: set<nat>)
    ensures Detours(WorkerAfter(me, w, n, r, queued)) - Detours(me) == Indicator(WorkerOp(w, me.pc) == Count(Yields))
  {
  }

  lemma YieldDelta(me: Worker, w: nat, n: nat, m: Memory, ch: Choice, queued: set<nat>)
    ensures var (m', r) := Exec(m, WorkerOp(w, me.pc), ch);
            var me' := WorkerAfter(me, w, n, r, queued);
            m'.stats.fairnessYields == m.stats.fairnessYields + Detours(me') - Detours(me)
  {
    StealOp(m, WorkerOp(w, me.pc), ch);
    YieldProgram(me, w, n, Exec(m, WorkerOp(w, me.pc), ch).1, queued);
  }

  // ---------- Slots ----------

  lemma SubmitFlight(s: State, c: nat, ch: Choice)
    requires FlightBalance(s) && Enabled(s, Submit(c, ch))
    ensures FlightBalance(Next(s, Submit(c, ch)))
  {
    CallDelta(s.calls[c], s.mem, s.cfg.capacity, |s.tasks|, ch);
    CallSum(s, c, ch, Reserved);
    PublishSum(s, c, ch, Waiting);
    PublishSum(s, c, ch, Executing);
  }

  lemma WorkFlight(s: State, w: nat, ch: Choice)
    requires InCustody(s) && FlightBalance(s) && Enabled(s, Work(w, ch))
    ensures FlightBalance(Next(s, Work(w, ch)))
  {
    HandSlotDelta(s.workers[w], w, |s.workers|, s.mem, ch, QueuedIds(s.tasks));
    TaskSum(s, w, ch, Waiting, WaitingPhase);
    TaskSum(s, w, ch, Executing, ExecutingPhase);
  }

  // ---------- Groups ----------

  lemma SubmitGroup(s: State, c: nat, ch: Choice, g: nat)
    requires InCustody(s) && Enabled(s, Submit(c, ch)) && g < |s.mem.groups| && GroupBalance(s, g)
    ensures var s' := Next(s, Submit(c, ch)); |s'.mem.groups| == |s.mem.groups| && GroupBalance(s', g)
  {
    assert CallOk(s.mem, s.calls[c]);
    CallGroupDelta(s.calls[c], s.mem, s.cfg.capacity, |s.tasks|, ch, g);
    CallSum(s, c, ch, Registered(g));
    PublishSum(s, c, ch, Member(g));
  }

  lemma WorkGroup(s: State, w: nat, ch: Choice, g: nat)
    requires InCustody(s) && Enabled(s, Work(w, ch)) && g < |s.mem.groups| && GroupBalance(s, g)
    ensures var s' := Next(s, Work(w, ch)); |s'.mem.groups| == |s.mem.groups| && GroupBalance(s', g)
  {
    assert WorkerOk(s.workers[w].pc);
    HandGroupDelta(s.workers[w], w, |s.workers|, s.mem, ch, QueuedIds(s.tasks), g);
    FollowEffect(s, w, ch);
    var s' := Next(s, Work(w, ch));
    var hand, hand' := Hand(s.workers[w].pc), Hand(s'.workers[w].pc);
    if hand.Some? || hand'.Some? {
      var id := (if hand.Some? then hand.value.0 else hand'.value.0).id;
      SumUpdate(s.tasks, id, s'.tasks[id], Member(g));
    }
  }

  lemma NewGroupBalance(s: State)
    requires InCustody(s) && GroupsBalance(s)
    ensures GroupsBalance(Next(s, NewGroup))
  {
    var s' := Next(s, NewGroup);
    var g := |s.mem.groups|;
    assert Sum(s.calls, Registered(g)) == 0 by {
      forall c | 0 <= c < |s.calls| ensures Registered(g)(s.calls[c]) == 0 { assert CallOk(s.mem, s.calls[c]); }
      SumConstant(s.calls, Registered(g), 0);
    }
    assert Sum(s.tasks, Member(g)) == 0 by {
      forall i | 0 <= i < |s.tasks| ensures Member(g)(s.tasks[i]) == 0 { assert RecordOk(s.mem, s.tasks[i], i); }
      SumConstant(s.tasks, Member(g), 0);
    }
    forall h | 0 <= h < |s'.mem.groups|
      ensures GroupBalance(s', h)
    {
      if h < g { assert GroupBalance(s, h); }
    }
  }

  // ---------- Statistics ----------

  lemma SubmitStats(s: State, c: nat, ch: Choice)
    requires StatsBalance(s) && Enabled(s, Submit(c, ch))
    ensures StatsBalance(Next(s, Submit(c, ch)))
  {
    CallDelta(s.calls[c], s.mem, s.cfg.capacity, |s.tasks|, ch);
    CallSum(s, c, ch, Unrecorded);
    CallSum(s, c, ch, Rejected);
    CallSum(s, c, ch, Published);
    PublishSum(s, c, ch, Counted);
    PublishSum(s, c, ch, Waiting);
    SubmitEffect(s, c, ch);
    if s.calls[c].pc.Publish? { PushBag(s.mem.q, Task(|s.tasks|, s.calls[c].priority, s.calls[c].group)); }
  }

  lemma WorkSize(s: State, w: nat, ch: Choice)
    requires InCustody(s) && Size(s.mem.q) == Sum(s.tasks, Waiting) && Enabled(s, Work(w, ch))
    ensures var s' := Next(s, Work(w, ch)); Size(s'.mem.q) == Sum(s'.tasks, Waiting)
  {
    HandStep(s.workers[w], w, |s.workers|, s.mem, ch, QueuedIds(s.tasks));
    TaskSum(s, w, ch, Waiting, WaitingPhase);
    ExecBag(s.mem, WorkerOp(w, s.workers[w].pc), ch);
  }

  lemma WorkStats(s: State, w: nat, ch: Choice)
    requires InCustody(s) && StatsBalance(s) && Enabled(s, Work(w, ch))
    ensures StatsBalance(Next(s, Work(w, ch)))
  {
    WorkSize(s, w, ch);
    HandCountDelta(s.workers[w], w, |s.workers|, s.mem, ch, QueuedIds(s.tasks));
    CompletedOp(s.mem, WorkerOp(w, s.workers[w].pc), ch);
    WorkerCounters(s.workers[w].pc, w);
    TaskSum(s, w, ch, Counted, CountedPhase);
    assert |Next(s, Work(w, ch)).tasks| == |s.tasks| by { FollowEffect(s, w, ch); }
  }

  // ---------- Workers ----------

  lemma WorkWorkers(s: State, w: nat, ch: Choice)
    requires WellFormed(s) && WorkerBalance(s) && Enabled(s, Work(w, ch))
    ensures WorkerBalance(Next(s, Work(w, ch)))
  {
    assert WorkerOk(s.workers[w].pc);
    SleepDelta(s.workers[w], w, |s.workers|, s.mem, ch, QueuedIds(s.tasks));
    StealDelta(s.workers[w], w, |s.workers|, s.mem, ch, QueuedIds(s.tasks));
    YieldDelta(s.workers[w], w, |s.workers|, s.mem, ch, QueuedIds(s.tasks));
    WorkerSum(s, w, ch, Sleeper);
    WorkerSum(s, w, ch, Stealing);
    WorkerSum(s, w, ch, PeerRetries);
    WorkerSum(s, w, ch, Detours);
  }

  // ---------- Publications ----------

  lemma SubmitPublications(s: State, c: nat, ch: Choice)
    requires Publications(s) && Enabled(s, Submit(c, ch))
    ensures Publications(Next(s, Submit(c, ch)))
  {
    var s' := Next(s, Submit(c, ch));
    SubmitEffect(s, c, ch);
    forall d | 0 <= d < |s'.calls|
      ensures CallPublished(s', d)
    {
      assert CallPublished(s, d);
    }
  }

  lemma WorkPublications(s: State, w: nat, ch: Choice)
    requires InCustody(s) && Publications(s) && Enabled(s, Work(w, ch))
    ensures Publications(Next(s, Work(w, ch)))
  {
    FollowEffect(s, w, ch);
    var s' := Next(s, Work(w, ch));
    forall d | 0 <= d < |s'.calls|
      ensures CallPublished(s', d)
    {
      assert CallPublished(s, d);
    }
  }

  // ---------- Every step ----------

  lemma SubmitBalance(s: State, c: nat, ch: Choice)
    requires InCustody(s) && InBalance(s) && Enabled(s, Submit(c, ch))
    ensures InBalance(Next(s, Submit(c, ch)))
  {
    SubmitFlight(s, c, ch);
    SubmitStats(s, c, ch);
    SubmitPublications(s, c, ch);
    CallDelta(s.calls[c], s.mem, s.cfg.capacity, |s.tasks|, ch);
    ExecBag(s.mem, CallOp(s.calls[c], |s.tasks|), ch);
    var s' := Next(s, Submit(c, ch));
    forall g | 0 <= g < |s'.mem.groups| ensures GroupBalance(s', g) { SubmitGroup(s, c, ch, g); }
  }

  lemma WorkBalance(s: State, w: nat, ch: Choice)
    requires InCustody(s) && InBalance(s) && Enabled(s, Work(w, ch))
    ensures InBalance(Next(s, Work(w, ch)))
  {
    WorkFlight(s, w, ch);
    WorkStats(s, w, ch);
    WorkWorkers(s, w, ch);
    WorkPublications(s, w, ch);
    ExecBag(s.mem, WorkerOp(w, s.workers[w].pc), ch);
    var s' := Next(s, Work(w, ch));
    forall g | 0 <= g < |s'.mem.groups| ensures GroupBalance(s', g) { WorkGroup(s, w, ch, g); }
  }

  lemma InvokeBalance(s: State, p: Priority, og: Option<nat>)
    requires InBalance(s) && Enabled(s, Invoke(p, og))
    ensures InBalance(Next(s, Invoke(p, og)))
  {
    var s' := Next(s, Invoke(p, og));
    var call := Call(p, og, Start);
    SumSnoc(s.calls, call, Reserved);
    SumSnoc(s.calls, call, Unrecorded);
    SumSnoc(s.calls, call, Rejected);
    SumSnoc(s.calls, call, Published);
    forall g | 0 <= g < |s'.mem.groups| ensures GroupBalance(s', g) {
      assert GroupBalance(s, g);
      SumSnoc(s.calls, call, Registered(g));
    }
    forall d | 0 <= d < |s'.calls| ensures CallPublished(s', d) { if d < |s.calls| { assert CallPublished(s, d); } }
  }

  /** States that differ only in flags, group count of groups and waiters keep their balances. */
  lemma SameBalance(s: State, s': State)
    requires InBalance(s)
    requires s'.calls == s.calls && s'.tasks == s.tasks && s'.workers == s.workers
    requires s'.mem.inFlight == s.mem.inFlight && s'.mem.sleeping == s.mem.sleeping && s'.mem.stats == s.mem.stats
    requires s'.mem.q == s.mem.q && GroupsBalance(s')
    ensures InBalance(s')
  {
    forall d | 0 <= d < |s'.calls| ensures CallPublished(s', d) { assert CallPublished(s, d); }
  }

  lemma SameGroups(s: State, s': State)
    requires GroupsBalance(s) && s'.calls == s.calls && s'.tasks == s.tasks && |s'.mem.groups| == |s.mem.groups|
    requires forall g :: 0 <= g < |s.mem.groups| ==> s'.mem.groups[g].count == s.mem.groups[g].count
    ensures GroupsBalance(s')
  {
    forall g | 0 <= g < |s'.mem.groups| ensures GroupBalance(s', g) { assert GroupBalance(s, g); }
  }

  lemma StepBalance(s: State, e: Event, s': State)
    requires InCustody(s) && InBalance(s) && Step(s, e, s')
    ensures InBalance(s')
  {
    match e
    case Submit(c, ch) => SubmitBalance(s, c, ch);
    case Work(w, ch) => WorkBalance(s, w, ch);
    case Invoke(p, g) => InvokeBalance(s, p, g);
    case NewGroup => NewGroupBalance(s); SameBalance(s, s');
    case Close(_) => QuietBalance(s, e, s');
    case Shutdown => QuietBalance(s, e, s');
    case StartWait(_) => QuietBalance(s, e, s');
    case Wait(_) => QuietBalance(s, e, s');
  }

  /** The events that touch no count. */
  lemma QuietBalance(s: State, e: Event, s': State)
    requires InBalance(s) && Step(s, e, s') && (e.Close? || e.Shutdown? || e.StartWait? || e.Wait?)
    ensures InBalance(s')
  {
    SameGroups(s, s');
    SameBalance(s, s');
  }

  /** Custody and balances hold in every state of every run. */
  lemma {:induction false} RunInvariant(r: seq<State>, es: seq<Event>, i: nat)
    requires Run(r, es) && Init(r[0]) && i < |r|
    ensures InCustody(r[i]) && InBalance(r[i])
  {
    if i == 0 {
      InitCustody(r[0]);
      InitBalance(r[0]);
    } else {
      RunInvariant(r, es, i - 1);
      assert StepAt(r, es, i - 1);
      StepCustody(r[i - 1], es[i - 1], r[i]);
      StepBalance(r[i - 1], es[i - 1], r[i]);
    }
  }
}
