/**
 * The submitting side as structured code. Every atomic operation goes through the shared object, other threads may take
 * any number of steps before each of them, and each operation must be the one the program counter asks for: so every
 * execution of this code, under any interference, is a run of the transition system.
 */
module SchedulerCode {
  import opened Queues
  import opened Memory
  import opened Programs
  import opened Machine
  import opened Ledger
  import opened Capacity
  import opened Waiting
  import opened Admission

  /** The thread that is running the code at hand. */
  datatype Actor = Caller(c: nat) | Runner(w: nat) | Sitter(x: nat)

  predicate By(e: Event, me: Actor) {
    match me
    case Caller(c) => e.Submit? && e.c == c
    case Runner(w) => e.Work? && e.w == w
    case Sitter(x) => e.Wait? && e.x == x
  }

  predicate Concerns(target: Target, t: Task) {
    target.OfGroup? ==> t.group == Some(target.g)
  }

  /** The shape of the answer to an operation. */
  predicate Answers(op: Op, r: Response) {
    && (op.LoadShutdown? || op.LoadClosed? ==> r.Flag?)
    && (op.LoadInFlight? || op.LoadGroup? || op.LoadSleeping? ==> r.Value?)
    && (op.SwapInFlight? ==> r.Swapped? && (r.ok ==> r.actual == op.expected))
    && (op.AddInFlight? || op.SubInFlight? || op.AddGroup? || op.SubGroup? || op.Count? || op.Push? || op.NotifyOne? ==>
          r == Ack)
    && (op.PopLocal? ==> r.Got? || r.Empty?)
    && (op.Batch? || op.StealFrom? ==> r.Got? || r.Empty? || r.Retry?)
  }

  lemma AnswersExec(m: Memory, op: Op, ch: Choice)
    ensures Answers(op, Exec(m, op, ch).1)
  {
  }

  /** What the other threads do next: callers know nothing about it. */
  method AnyEvents() returns (schedule: seq<Event>)
  {
    schedule := [];
  }

  /** How the environment decides the outcome of one operation: callers know only that batches are bounded. */
  method AnyChoice(batch: nat) returns (ch: Choice)
    ensures ch.extra <= batch
  {
    ch := Choice(false, batch);
  }

  /** A step of one thread leaves every other thread, and the configuration, alone. */
  lemma StepFrame(s: State, e: Event, me: Actor)
    requires Enabled(s, e) && !By(e, me)
    ensures var s' := Next(s, e);
            && s'.cfg == s.cfg && |s'.workers| == |s.workers|
            && (me.Caller? && me.c < |s.calls| ==> me.c < |s'.calls| && s'.calls[me.c] == s.calls[me.c])
            && (me.Runner? && me.w < |s.workers| ==> s'.workers[me.w] == s.workers[me.w])
            && (me.Sitter? && me.x < |s.waiters| ==> me.x < |s'.waiters| && s'.waiters[me.x] == s.waiters[me.x])
  {
  }

  /** In the reservation loop, with the count loaded. */
  predicate Retrying(pc: CallPc) {
    pc.Swap? || pc.NoteFull?
  }

  /** An accepted submission has its own task on record; one that failed has none. */
  lemma OwnRecord(r: seq<State>, es: seq<Event>, i: nat, c: nat)
    requires Run(r, es) && Init(r[0]) && i < |r| && c < |r[i].calls| && r[i].calls[c].pc.Returned?
    ensures var s, call := r[i], r[i].calls[c];
            if call.pc.outcome.Accepted? then
              && call.pc.outcome.id < |s.tasks| && s.tasks[call.pc.outcome.id].caller == c
              && s.tasks[call.pc.outcome.id].task == Task(call.pc.outcome.id, call.priority, call.group)
            else forall id :: 0 <= id < |s.tasks| ==> s.tasks[id].caller != c
  {
    RunInvariant(r, es, i);
    assert CallPublished(r[i], c);
  }

  // ---------- The operations of a submission in source order, with their answers ----------

  /** An operation that has nothing to answer. */
  function Did(op: Op): Entry {
    Entry(op, Ack)
  }

  /** What the entry tells about the in-flight count. */
  function Seen(e: Entry): int {
    match e.r
    case Value(n) => n
    case Swapped(_, actual) => actual
    case _ => 0
  }

  /** The reservation loop so far: a load, then swaps that failed, each expecting what was seen last, below capacity. */
  predicate Tried(capacity: nat, ops: seq<Entry>) {
    && ops != []
    && var last := ops[|ops| - 1];
       if |ops| == 1 then last.op == LoadInFlight && last.r.Value?
       else
         && last.op == SwapInFlight(Seen(ops[|ops| - 2])) && last.r.Swapped? && !last.r.ok
         && Seen(ops[|ops| - 2]) < capacity && Tried(capacity, ops[..|ops| - 1])
  }

  /** Then either the count was seen to be at capacity, or a swap that expected what was seen last succeeded. */
  predicate Reserving(capacity: nat, r: Option<bool>, ops: seq<Entry>) {
    if capacity == 0 then r == Some(true) && ops == [Did(AddInFlight)]
    else if r.None? then Tried(capacity, ops)
    else
      && |ops| >= 2 && Tried(capacity, ops[..|ops| - 1])
      && var seen := Seen(ops[|ops| - 2]);
         if r.value then seen < capacity && ops[|ops| - 1] == Entry(SwapInFlight(seen), Swapped(true, seen))
         else seen >= capacity && ops[|ops| - 1] == Did(Count(RejectedFull))
  }

  /** A look at the shutdown flag. */
  function FlagWas(stopped: bool): Entry {
    Entry(LoadShutdown, Flag(stopped))
  }

  /** Registration with a group: it is open, count, it is still open. */
  function Joining(group: Option<nat>): seq<Entry> {
    if group.None? then []
    else [Entry(LoadClosed(group.value), Flag(false)), Did(AddGroup(group.value)),
          Entry(LoadClosed(group.value), Flag(false))]
  }

  /** A registration that is refused: the group is closed; or, if `late`, it closes once counted, and that is undone. */
  function Refusal(group: Option<nat>, late: bool): seq<Entry> {
    if group.None? then []
    else if !late then [Entry(LoadClosed(group.value), Flag(true))]
    else [Entry(LoadClosed(group.value), Flag(false)), Did(AddGroup(group.value)),
          Entry(LoadClosed(group.value), Flag(true)), Did(SubGroup(group.value))]
  }

  /** The slot first, then the group entry. */
  function RollingBack(group: Option<nat>): seq<Entry> {
    [Did(SubInFlight)] + if group.Some? then [Did(SubGroup(group.value))] else []
  }

  /** Count the submission, look at the sleepers, and notify if there are any. */
  function Waking(sleepers: int): seq<Entry> {
    [Did(Count(Submitted)), Entry(LoadSleeping, Value(sleepers))] + if sleepers != 0 then [Did(NotifyOne)] else []
  }

  /** Publish, and then that. */
  function Announcing(p: Priority, group: Option<nat>, id: nat, sleepers: int): seq<Entry> {
    [Did(Push(Task(id, p, group)))] + Waking(sleepers)
  }

  /** The courses a submission can take. */
  datatype Course =
    | TurnedAtDoor | StillTrying | FoundFull | TurnedAtRecheck | TurnedByGroup(late: bool) | TurnedAtLastCheck
    | WentThrough(id: nat, sleepers: int)

  /** What a submission answers that takes this course. */
  function Answer(course: Course): Option<Outcome> {
    match course
    case StillTrying => None
    case FoundFull => Some(QueueFull)
    case WentThrough(id, _) => Some(Accepted(id))
    case _ => Some(Stopped)
  }

  /** The operations of the reservation, if it came to that, are as the course says; and only a group can refuse. */
  predicate Possible(group: Option<nat>, capacity: nat, course: Course, swaps: seq<Entry>) {
    match course
    case TurnedAtDoor => swaps == []
    case StillTrying => Reserving(capacity, None, swaps)
    case FoundFull => Reserving(capacity, Some(false), swaps)
    case _ => Reserving(capacity, Some(true), swaps) && (course.TurnedByGroup? ==> group.Some?)
  }

  /** The courses from the group on. */
  predicate Enrolled(group: Option<nat>, course: Course) {
    (course.TurnedByGroup? && group.Some?) || course.TurnedAtLastCheck? || course.WentThrough?
  }

  /** The last check is clear and the task is published, or it is set and both claims are rolled back. */
  function AfterJoining(p: Priority, group: Option<nat>, course: Course): seq<Entry> {
    if course.WentThrough? then [FlagWas(false)] + Announcing(p, group, course.id, course.sleepers)
    else [FlagWas(true)] + RollingBack(group)
  }

  /** The group refuses and the slot is given back, or the submission registers and goes on. */
  function AfterRecheck(p: Priority, group: Option<nat>, course: Course): seq<Entry> {
    if course.TurnedByGroup? then Refusal(group, course.late) + [Did(SubInFlight)]
    else Joining(group) + AfterJoining(p, group, course)
  }

  /** The re-check is set and the slot is given back, or it is clear and the submission goes on. */
  function AfterSlot(p: Priority, group: Option<nat>, course: Course): seq<Entry> {
    if course.TurnedAtRecheck? then [FlagWas(true)] + [Did(SubInFlight)]
    else [FlagWas(false)] + AfterRecheck(p, group, course)
  }

  /** The reservation, and what follows it if it succeeded. */
  function AfterDoor(p: Priority, group: Option<nat>, course: Course, swaps: seq<Entry>): seq<Entry> {
    if course.StillTrying? || course.FoundFull? then swaps else swaps + AfterSlot(p, group, course)
  }

  /** All operations of a submission that takes this course, with their answers, in source order. */
  function Log(p: Priority, group: Option<nat>, course: Course, swaps: seq<Entry>): seq<Entry> {
    if course.TurnedAtDoor? then [FlagWas(true)] else [FlagWas(false)] + AfterDoor(p, group, course, swaps)
  }

  /** One more failed swap. */
  lemma TriedMore(capacity: nat, ops: seq<Entry>, e: Entry)
    requires Tried(capacity, ops) && Seen(ops[|ops| - 1]) < capacity
    requires e.op == SwapInFlight(Seen(ops[|ops| - 1])) && e.r.Swapped? && !e.r.ok
    ensures Tried(capacity, ops + [e])
  {
    assert (ops + [e])[..|ops|] == ops;
  }

  /** The swap that succeeded, or the count that was at capacity. */
  lemma TriedLast(capacity: nat, ops: seq<Entry>, e: Entry, reserved: bool)
    requires capacity > 0 && Tried(capacity, ops)
    requires var seen := Seen(ops[|ops| - 1]);
             if reserved then seen < capacity && e == Entry(SwapInFlight(seen), Swapped(true, seen))
             else seen >= capacity && e == Did(Count(RejectedFull))
    ensures Reserving(capacity, Some(reserved), ops + [e])
  {
    assert (ops + [e])[..|ops|] == ops;
  }

  lemma Regroup(a: seq<Entry>, b: seq<Entry>, c: seq<Entry>)
    ensures (a + b) + c == a + (b + c)
  {
  }

  class Scheduler {
    var st: State
    /** The run so far. */
    ghost var states: seq<State>
    ghost var events: seq<Event>
    /** The atomic operations issued by the submission that is running, with their answers. */
    ghost var issued: seq<Entry>

    ghost predicate Valid()
      reads this
    {
      Run(states, events) && Init(states[0]) && st == states[|events|]
    }

    constructor (workerCount: nat, capacity: nat, batch: nat)
      ensures Valid() && st.cfg == Config(capacity, batch)
      ensures |st.workers| == if workerCount == 0 then 1 else workerCount
    {
      var n := if workerCount == 0 then 1 else workerCount;
      var q := Queues([], [], [], seq(n, _ => []));
      st := State(Config(capacity, batch), Memory(false, 0, 0, [], Stats(0, 0, 0, 0, 0, 0, 0), q), [], [],
                  seq(n, _ => NEW_WORKER), []);
      new;
      states, events, issued := [st], [], [];
    }

    /** One step of the system. */
    method Perform(e: Event)
      requires Valid() && Enabled(st, e)
      modifies this
      ensures Valid() && st == Next(old(st), e)
      ensures states == old(states) + [st] && events == old(events) + [e] && issued == old(issued)
    {
      st := Next(st, e);
      states, events := states + [st], events + [e];
      forall i | 0 <= i < |events|
        ensures StepAt(states, events, i)
      {
        if i < |old(events)| { assert StepAt(old(states), old(events), i); }
      }
    }

    twostate predicate Later()
      reads this
    {
      old(events) <= events && old(states) <= states && st.cfg == old(st.cfg) && |st.workers| == |old(st.workers)|
    }

    /** Any number of steps of any other threads. */
    method Interfere(me: Actor)
      requires Valid()
      modifies this
      ensures Valid() && Later() && issued == old(issued)
      ensures me.Caller? && me.c < |old(st.calls)| ==> me.c < |st.calls| && st.calls[me.c] == old(st.calls)[me.c]
      ensures me.Runner? && me.w < |old(st.workers)| ==> st.workers[me.w] == old(st.workers)[me.w]
      ensures me.Sitter? && me.x < |old(st.waiters)| ==>
                me.x < |st.waiters| && st.waiters[me.x] == old(st.waiters)[me.x]
    {
      var schedule := AnyEvents();
      for i := 0 to |schedule|
        invariant Valid() && Later() && issued == old(issued)
        invariant me.Caller? && me.c < |old(st.calls)| ==> me.c < |st.calls| && st.calls[me.c] == old(st.calls)[me.c]
        invariant me.Runner? && me.w < |old(st.workers)| ==> st.workers[me.w] == old(st.workers)[me.w]
        invariant me.Sitter? && me.x < |old(st.waiters)| ==>
                    me.x < |st.waiters| && st.waiters[me.x] == old(st.waiters)[me.x]
      {
        if Enabled(st, schedule[i]) && !By(schedule[i], me) {
          StepFrame(st, schedule[i], me);
          Perform(schedule[i]);
        }
      }
    }

    /** One atomic operation of submission c. */
    method CallAtomic(c: nat, op: Op) returns (r: Response)
      requires Valid() && c < |st.calls| && !st.calls[c].pc.Returned? && !st.calls[c].pc.Publish?
      requires op == CallOp(st.calls[c], 0)
      modifies this
      ensures Valid() && Later() && Answers(op, r) && c < |st.calls|
      ensures st.calls[c] == old(st.calls[c]).(pc := CallAfter(old(st.calls[c]), st.cfg.capacity, 0, r))
      ensures issued == old(issued) + [Entry(op, r)]
    {
      Interfere(Caller(c));
      var ch := AnyChoice(st.cfg.batch);
      r := Exec(st.mem, op, ch).1;
      AnswersExec(st.mem, op, ch);
      Perform(Submit(c, ch));
      issued := issued + [Entry(op, r)];
    }

    /** `push_global`, the moment of publication: the task's number is its place in the publication order. */
    method PushGlobal(c: nat) returns (id: nat)
      requires Valid() && c < |st.calls| && st.calls[c].pc.Publish?
      modifies this
      ensures Valid() && Later() && c < |st.calls|
      ensures st.calls[c] == old(st.calls[c]).(pc := NoteSubmit(id))
      ensures var task := Task(id, st.calls[c].priority, st.calls[c].group);
              && |st.tasks| == id + 1 && st.tasks[id] == Record(task, c, Queued, 0)
              && |states| > |old(states)| && st.mem.q == PushTask(states[|states| - 2].mem.q, task)
              && issued == old(issued) + [Did(Push(task))]
    {
      Interfere(Caller(c));
      id := |st.tasks|;
      var ch := AnyChoice(st.cfg.batch);
      issued := issued + [Did(CallOp(st.calls[c], id))];
      Perform(Submit(c, ch));
    }

    /**
     * `reserve_task_slot`. The retry loop is cut off after `tries` failed swaps, which leaves the call in the loop.
     */
    method ReserveTaskSlot(c: nat, tries: nat) returns (r: Option<bool>, ghost swaps: seq<Entry>)
      requires Valid() && c < |st.calls|
      requires st.calls[c].pc == if st.cfg.capacity == 0 then Reserve else LoadCount
      modifies this
      ensures Valid() && Later() && c < |st.calls|
      ensures st.calls[c] == old(st.calls[c]).(pc := st.calls[c].pc)
      ensures r == Some(true) ==> st.calls[c].pc == Recheck
      ensures r == Some(false) ==> st.calls[c].pc == Returned(QueueFull)
      ensures r.None? ==> Retrying(st.calls[c].pc)
      ensures issued == old(issued) + swaps && Reserving(st.cfg.capacity, r, swaps)
    {
      if st.cfg.capacity == 0 {
        var _ := CallAtomic(c, AddInFlight);
        return Some(true), [Did(AddInFlight)];
      }
      var answer := CallAtomic(c, LoadInFlight);
      var current := answer.n;
      swaps := [Entry(LoadInFlight, answer)];
      for i := 0 to tries
        invariant Valid() && Later() && c < |st.calls|
        invariant st.calls[c] == old(st.calls[c]).(pc := TrySwap(st.cfg.capacity, current))
        invariant issued == old(issued) + swaps && Tried(st.cfg.capacity, swaps) && Seen(swaps[|swaps| - 1]) == current
      {
        ghost var e;
        r, current, e := TryOnce(c, current, swaps);
        Regroup(old(issued), swaps, [e]);
        swaps := swaps + [e];
        if r.Some? {
          return;
        }
      }
      r := None;
    }

    /** One round of the loop: refused at capacity, or a swap that succeeds or tells the count it found. */
    method TryOnce(c: nat, current: int, ghost tried: seq<Entry>)
      returns (r: Option<bool>, actual: int, ghost e: Entry)
      requires Valid() && c < |st.calls| && st.cfg.capacity > 0 && st.calls[c].pc == TrySwap(st.cfg.capacity, current)
      requires Tried(st.cfg.capacity, tried) && Seen(tried[|tried| - 1]) == current
      modifies this
      ensures Valid() && Later() && c < |st.calls|
      ensures st.calls[c] == old(st.calls[c]).(pc := match r
                                                     case None => TrySwap(st.cfg.capacity, actual)
                                                     case Some(true) => Recheck
                                                     case Some(false) => Returned(QueueFull))
      ensures issued == old(issued) + [e]
      ensures r.Some? ==> Reserving(st.cfg.capacity, r, tried + [e])
      ensures r.None? ==> Tried(st.cfg.capacity, tried + [e]) && Seen(e) == actual
    {
      if current >= st.cfg.capacity {
        var _ := CallAtomic(c, Count(RejectedFull));
        e := Did(Count(RejectedFull));
        TriedLast(st.cfg.capacity, tried, e, false);
        return Some(false), current, e;
      }
      var answer := CallAtomic(c, SwapInFlight(current));
      e := Entry(SwapInFlight(current), answer);
      if answer.ok {
        TriedLast(st.cfg.capacity, tried, e, true);
        return Some(true), current, e;
      }
      TriedMore(st.cfg.capacity, tried, e);
      return None, answer.actual, e;
    }

    /** `add_task`: check, increment, check again, and undo if the group closed in between. */
    method AddTask(c: nat, g: nat) returns (joined: bool, ghost late: bool)
      requires Valid() && c < |st.calls| && st.calls[c].pc == GroupCheck && st.calls[c].group == Some(g)
      modifies this
      ensures Valid() && Later() && c < |st.calls|
      ensures st.calls[c] == old(st.calls[c]).(pc := if joined then FinalCheck else Release)
      ensures issued == old(issued) + if joined then Joining(Some(g)) else Refusal(Some(g), late)
    {
      var closed := CallAtomic(c, LoadClosed(g));
      if closed.b {
        return false, false;
      }
      var _ := CallAtomic(c, AddGroup(g));
      closed := CallAtomic(c, LoadClosed(g));
      if closed.b {
        var _ := CallAtomic(c, SubGroup(g));
        return false, true;
      }
      return true, false;
    }

    /**
     * `push_internal`, from the first shutdown check to the wake-up. What it returns is what its run of the transition
     * system returned, is justified by that run, and is `Stopped` if the scheduler was shut down already; and the
     * operations it issued, with their answers, are those of one of the courses.
     * `None` means the reservation loop was still retrying after `tries` swaps.
     */
    method PushInternal(priority: Priority, group: Option<nat>, tries: nat)
      returns (c: nat, r: Option<Outcome>, ghost course: Course, ghost swaps: seq<Entry>)
      requires Valid() && (group.Some? ==> group.value < |st.mem.groups|)
      modifies this
      ensures Valid() && Later() && c < |st.calls|
      ensures r.Some? ==> st.calls[c] == Call(priority, group, Returned(r.value))
      ensures r.None? ==> Retrying(st.calls[c].pc)
      ensures r.Some? ==> Justified(c, priority, group, r.value)
      ensures old(st.mem.shutdown) ==> r == Some(Stopped)
      ensures r == Answer(course) && Possible(group, st.cfg.capacity, course, swaps)
      ensures issued == old(issued) + Log(priority, group, course, swaps)
    {
      c := |st.calls|;
      Perform(Invoke(priority, group));
      r, course, swaps := Submission(c, tries);
      if r.Some? { Justify(c, r.value); }
    }

    /**
     * What the answer of submission c says about the run: an accepted task is its own and was published with the flag
     * read clear just before; otherwise nothing of it was published, and while the call ran the scheduler was full, or
     * it was shutting down or the group closed.
     */
    ghost predicate Justified(c: nat, priority: Priority, group: Option<nat>, r: Outcome)
      reads this
    {
      match r
      case Accepted(id) =>
        && id < |st.tasks| && st.tasks[id].caller == c && st.tasks[id].task == Task(id, priority, group)
        && exists k, p :: LastCheck(states, events, k, p, c) && PublishesAt(states, events, p, c)
      case QueueFull =>
        && (forall id :: 0 <= id < |st.tasks| ==> st.tasks[id].caller != c)
        && exists k :: 0 <= k < |states| && FullDuring(states[k], c)
      case Stopped =>
        && (forall id :: 0 <= id < |st.tasks| ==> st.tasks[id].caller != c)
        && exists k :: 0 <= k < |states| && HinderedDuring(states[k], c)
    }

    lemma Justify(c: nat, r: Outcome)
      requires Valid() && c < |st.calls| && st.calls[c].pc == Returned(r)
      ensures Justified(c, st.calls[c].priority, st.calls[c].group, r)
    {
      OwnRecord(states, events, |events|, c);
      match r
      case Accepted(id) => var k, p := PublishedWithFlagClear(states, events, |events|, id);
      case QueueFull => var k := RefusalSawFull(states, events, |events|, c);
      case Stopped => var k := StoppedSawStop(states, events, |events|, c);
    }

    method Submission(c: nat, tries: nat) returns (r: Option<Outcome>, ghost course: Course, ghost swaps: seq<Entry>)
      requires Valid() && c < |st.calls| && st.calls[c].pc == Start
      modifies this
      ensures Valid() && Later() && c < |st.calls|
      ensures st.calls[c] == old(st.calls[c]).(pc := st.calls[c].pc)
      ensures if r.Some? then st.calls[c].pc == Returned(r.value) else Retrying(st.calls[c].pc)
      ensures r == Answer(course) && Possible(st.calls[c].group, st.cfg.capacity, course, swaps)
      ensures issued == old(issued) + Log(st.calls[c].priority, st.calls[c].group, course, swaps)
      ensures old(st.mem.shutdown) ==> r == Some(Stopped)
    {
      ghost var before := |events|;
      var stopped := CallAtomic(c, LoadShutdown);
      if stopped.b {
        return Some(Stopped), TurnedAtDoor, [];
      }
      r, course, swaps := Proceed(c, tries);
      if old(st.mem.shutdown) { AtTheDoor(states, events, before, |events|, c); }
      Regroup(old(issued), [FlagWas(false)], AfterDoor(st.calls[c].priority, st.calls[c].group, course, swaps));
    }

    /** Past the first shutdown check: reserve a slot, then go on. */
    method Proceed(c: nat, tries: nat) returns (r: Option<Outcome>, ghost course: Course, ghost swaps: seq<Entry>)
      requires Valid() && c < |st.calls| && st.calls[c].pc == if st.cfg.capacity == 0 then Reserve else LoadCount
      modifies this
      ensures Valid() && Later() && c < |st.calls| && !course.TurnedAtDoor?
      ensures st.calls[c] == old(st.calls[c]).(pc := st.calls[c].pc)
      ensures if r.Some? then st.calls[c].pc == Returned(r.value) else Retrying(st.calls[c].pc)
      ensures r == Answer(course) && Possible(st.calls[c].group, st.cfg.capacity, course, swaps)
      ensures issued == old(issued) + AfterDoor(st.calls[c].priority, st.calls[c].group, course, swaps)
    {
      var slot;
      slot, swaps := ReserveTaskSlot(c, tries);
      if slot.None? {
        return None, StillTrying, swaps;
      }
      if !slot.value {
        return Some(QueueFull), FoundFull, swaps;
      }
      var outcome;
      outcome, course := Register(c);
      Regroup(old(issued), swaps, AfterSlot(st.calls[c].priority, st.calls[c].group, course));
      r := Some(outcome);
    }

    /** The middle of `push_internal`: the slot is reserved, the shutdown re-check and the group come next. */
    method Register(c: nat) returns (r: Outcome, ghost course: Course)
      requires Valid() && c < |st.calls| && st.calls[c].pc == Recheck
      modifies this
      ensures Valid() && Later() && c < |st.calls|
      ensures st.calls[c] == old(st.calls[c]).(pc := Returned(r))
      ensures course.TurnedAtRecheck? || Enrolled(st.calls[c].group, course)
      ensures Some(r) == Answer(course)
      ensures issued == old(issued) + AfterSlot(st.calls[c].priority, st.calls[c].group, course)
    {
      var stopped := CallAtomic(c, LoadShutdown);
      if stopped.b {
        var _ := CallAtomic(c, SubInFlight);
        Regroup(old(issued), [FlagWas(true)], [Did(SubInFlight)]);
        return Stopped, TurnedAtRecheck;
      }
      r, course := Enrol(c);
      Regroup(old(issued), [FlagWas(false)], AfterRecheck(st.calls[c].priority, st.calls[c].group, course));
    }

    /** From there on: the group, if there is one, and the end. */
    method Enrol(c: nat) returns (r: Outcome, ghost course: Course)
      requires Valid() && c < |st.calls| && st.calls[c].pc == if st.calls[c].group.Some? then GroupCheck else FinalCheck
      modifies this
      ensures Valid() && Later() && c < |st.calls|
      ensures st.calls[c] == old(st.calls[c]).(pc := Returned(r))
      ensures Enrolled(st.calls[c].group, course) && Some(r) == Answer(course)
      ensures issued == old(issued) + AfterRecheck(st.calls[c].priority, st.calls[c].group, course)
    {
      var group := st.calls[c].group;
      if group.Some? {
        var refused, late := Join(c, group.value);
        if refused {
          return Stopped, TurnedByGroup(late);
        }
      }
      r, course := Finish(c);
      Regroup(old(issued), Joining(group), AfterJoining(st.calls[c].priority, group, course));
    }

    /** The group's part of it: register, or give the slot back. */
    method Join(c: nat, g: nat) returns (refused: bool, ghost late: bool)
      requires Valid() && c < |st.calls| && st.calls[c].pc == GroupCheck && st.calls[c].group == Some(g)
      modifies this
      ensures Valid() && Later() && c < |st.calls|
      ensures st.calls[c] == old(st.calls[c]).(pc := if refused then Returned(Stopped) else FinalCheck)
      ensures issued == old(issued)
                        + if refused then Refusal(Some(g), late) + [Did(SubInFlight)] else Joining(Some(g))
    {
      var joined;
      joined, late := AddTask(c, g);
      if !joined {
        var _ := CallAtomic(c, SubInFlight);
        Regroup(old(issued), Refusal(Some(g), late), [Did(SubInFlight)]);
      }
      refused := !joined;
    }

    /** The end of `push_internal`: the last shutdown check, then both roll-backs or the publication. */
    method Finish(c: nat) returns (r: Outcome, ghost course: Course)
      requires Valid() && c < |st.calls| && st.calls[c].pc == FinalCheck
      modifies this
      ensures Valid() && Later() && c < |st.calls|
      ensures st.calls[c] == old(st.calls[c]).(pc := Returned(r))
      ensures (course.TurnedAtLastCheck? || course.WentThrough?) && Some(r) == Answer(course)
      ensures issued == old(issued) + AfterJoining(st.calls[c].priority, st.calls[c].group, course)
    {
      var stopped := CallAtomic(c, LoadShutdown);
      if stopped.b {
        RollBack(c);
        Regroup(old(issued), [FlagWas(true)], RollingBack(st.calls[c].group));
        return Stopped, TurnedAtLastCheck;
      }
      var id, sleepers := Announce(c);
      Regroup(old(issued), [FlagWas(false)], Announcing(st.calls[c].priority, st.calls[c].group, id, sleepers));
      return Accepted(id), WentThrough(id, sleepers);
    }

    method RollBack(c: nat)
      requires Valid() && c < |st.calls| && st.calls[c].pc == FinalRelease
      modifies this
      ensures Valid() && Later() && c < |st.calls|
      ensures st.calls[c] == old(st.calls[c]).(pc := Returned(Stopped))
      ensures issued == old(issued) + RollingBack(old(st.calls[c]).group)
    {
      var group := st.calls[c].group;
      var _ := CallAtomic(c, SubInFlight);
      if group.Some? {
        var _ := CallAtomic(c, SubGroup(group.value));
      }
    }

    /** Publish, count, look at the sleepers and notify if there are any. */
    method Announce(c: nat) returns (id: nat, ghost sleepers: int)
      requires Valid() && c < |st.calls| && st.calls[c].pc == Publish
      modifies this
      ensures Valid() && Later() && c < |st.calls|
      ensures st.calls[c] == old(st.calls[c]).(pc := Returned(Accepted(id)))
      ensures issued == old(issued) + Announcing(st.calls[c].priority, st.calls[c].group, id, sleepers)
      ensures id < |st.tasks| && st.tasks[id].caller == c
      ensures st.tasks[id].task == Task(id, st.calls[c].priority, st.calls[c].group)
    {
      id := PushGlobal(c);
      var n := WakeOne(c, id);
      sleepers := n;
      OwnRecord(states, events, |events|, c);
    }

    /** The submission statistic, then `wake_one`. */
    method WakeOne(c: nat, id: nat) returns (sleepers: int)
      requires Valid() && c < |st.calls| && st.calls[c].pc == NoteSubmit(id)
      modifies this
      ensures Valid() && Later() && c < |st.calls|
      ensures st.calls[c] == old(st.calls[c]).(pc := Returned(Accepted(id)))
      ensures issued == old(issued) + Waking(sleepers)
    {
      var _ := CallAtomic(c, Count(Submitted));
      var answer := CallAtomic(c, LoadSleeping);
      sleepers := answer.n;
      if sleepers != 0 {
        var _ := CallAtomic(c, NotifyOne);
      }
    }

    /** `begin_shutdown` */
    method BeginShutdown()
      requires Valid()
      modifies this
      ensures Valid() && Later() && st == old(st).(mem := old(st.mem).(shutdown := true))
    {
      Perform(Shutdown);
    }

    /** A new, open, empty group. */
    method CreateGroup() returns (g: nat)
      requires Valid()
      modifies this
      ensures Valid() && Later() && g == |old(st.mem.groups)|
      ensures st == old(st).(mem := old(st.mem).(groups := old(st.mem.groups) + [Group(0, false)]))
    {
      g := |st.mem.groups|;
      Perform(NewGroup);
    }

    /** `close` */
    method CloseGroup(g: nat)
      requires Valid() && g < |st.mem.groups|
      modifies this
      ensures Valid() && Later()
      ensures var groups := old(st.mem.groups);
              st == old(st).(mem := old(st.mem).(groups := groups[g := groups[g].(closed := true)]))
    {
      Perform(Close(g));
    }

    /** One turn of a waiter: a check of the count, or the return from the condvar. */
    method WaiterTurn(x: nat)
      requires Valid() && x < |st.waiters| && !st.waiters[x].pc.Released?
      modifies this
      ensures Valid() && Later() && x < |st.waiters|
      ensures st.waiters[x] == old(st.waiters[x]).(pc := st.waiters[x].pc)
      ensures |events| > |old(events)| && events[|events| - 1] == Wait(x)
      ensures old(st.waiters[x]).pc.Parked? ==> st.waiters[x].pc.Check?
      ensures old(st.waiters[x]).pc.Check? ==>
                if TargetCount(states[|events| - 1].mem, st.waiters[x].target) == 0 then st.waiters[x].pc.Released?
                else st.waiters[x].pc.Parked?
    {
      Interfere(Sitter(x));
      Perform(Wait(x));
      WaitDecision(states, events, |events| - 1, x);
    }

    /** Waiter x checked the count of its target at event k, and it was zero or not. */
    ghost predicate CheckedAt(k: nat, x: nat, target: Target, zero: bool)
      requires |states| == |events| + 1
      reads this
    {
      k < |events| && events[k] == Wait(x) && (TargetCount(states[k].mem, target) == 0 <==> zero)
    }

    method WaitLoop(x: nat, rounds: nat) returns (done: bool)
      requires Valid() && x < |st.waiters| && st.waiters[x].pc.Check?
      modifies this
      ensures Valid() && Later() && x < |st.waiters|
      ensures st.waiters[x] == old(st.waiters[x]).(pc := st.waiters[x].pc)
      ensures if done then st.waiters[x].pc.Released? else st.waiters[x].pc.Check?
      ensures done || rounds > 0 ==> exists k :: |old(events)| <= k && CheckedAt(k, x, st.waiters[x].target, done)
    {
      ghost var last := 0;
      for i := 0 to rounds
        invariant Valid() && Later() && x < |st.waiters| && st.waiters[x] == old(st.waiters[x])
        invariant i > 0 ==> |old(events)| <= last && CheckedAt(last, x, st.waiters[x].target, false)
      {
        WaiterTurn(x);
        last := |events| - 1;
        if st.waiters[x].pc.Released? {
          assert CheckedAt(last, x, st.waiters[x].target, true);
          return true;
        }
        WaiterTurn(x);
      }
      return false;
    }

    /**
     * `Scheduler::wait` and `TaskGroup::wait`: check the count, block while it is not zero. When it returns within
     * `rounds` checks, every task of the target published before the call has run and is counted as completed. It
     * returns because a check during the call read zero, and goes on only because one read something else: while the
     * count is zero it returns at once.
     */
    method WaitFor(target: Target, rounds: nat) returns (x: nat, done: bool)
      requires Valid() && (target.OfGroup? ==> target.g < |st.mem.groups|)
      modifies this
      ensures Valid() && Later() && x < |st.waiters| && |old(st.tasks)| <= |st.tasks|
      ensures if done then st.waiters[x].pc.Released? else st.waiters[x].pc.Check?
      ensures done ==>
                forall id :: 0 <= id < |old(st.tasks)| && Concerns(target, st.tasks[id].task) ==>
                  st.tasks[id].runs == 1 && Counted(st.tasks[id]) == 1
      ensures done || rounds > 0 ==> exists k :: |old(events)| <= k && CheckedAt(k, x, target, done)
      ensures rounds > 0 && (forall k :: |old(events)| <= k < |events| ==> TargetCount(states[k].mem, target) == 0) ==>
                done
    {
      x := |st.waiters|;
      ghost var before := |events|;
      Perform(StartWait(target));
      done := WaitLoop(x, rounds);
      Remembered(states, events, before, |events|);
      if done {
        forall id | 0 <= id < |old(st.tasks)| && Concerns(target, st.tasks[id].task)
          ensures st.tasks[id].runs == 1 && Counted(st.tasks[id]) == 1
        {
          ReleasedTask(states, events, |events|, x, id);
        }
      }
    }
  }
}
