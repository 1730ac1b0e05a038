/** The memory shared by all threads and the effect of one atomic operation on it. */
module Memory {
  import opened Queues

  datatype Stats = Stats(submitted: nat, completed: nat, rejectedFull: nat, attempted: nat, succeeded: nat,
                         fairnessYields: nat, failures: nat)

  datatype Counter = Submitted | Completed | RejectedFull | Attempted | Succeeded | Yields | Failures

  function Bump(st: Stats, c: Counter): Stats {
    match c
    case Submitted => st.(submitted := st.submitted + 1)
    case Completed => st.(completed := st.completed + 1)
    case RejectedFull => st.(rejectedFull := st.rejectedFull + 1)
    case Attempted => st.(attempted := st.attempted + 1)
    case Succeeded => st.(succeeded := st.succeeded + 1)
    case Yields => st.(fairnessYields := st.fairnessYields + 1)
    case Failures => st.(failures := st.failures + 1)
  }

  /** `count` is an `int`: that it never goes below zero is proved, not built in. */
  datatype Group = Group(count: int, closed: bool)

  datatype Memory = Memory(shutdown: bool, inFlight: int, sleeping: int, groups: seq<Group>, stats: Stats, q: Queues)

  /**
   * One atomic operation. `Local` touches no shared memory (running a callback, returning from a condvar wait), and
   * neither does `NotifyOne`, a notification of the sleeping workers' condvar: whom it wakes is not modelled.
   */
  datatype Op =
    | Local | NotifyOne
    | LoadShutdown | StoreShutdown
    | LoadInFlight | AddInFlight | SubInFlight | SwapInFlight(expected: int)
    | LoadSleeping | AddSleeping | SubSleeping
    | LoadClosed(g: nat) | StoreClosed(g: nat) | LoadGroup(g: nat) | AddGroup(g: nat) | SubGroup(g: nat)
    | Count(c: Counter)
    | Push(t: Task) | PopLocal(w: nat) | Batch(p: Priority, w: nat) | StealFrom(v: nat)

  datatype Response =
    | Ack
    | Flag(b: bool)
    | Value(n: int)
    | Swapped(ok: bool, actual: int)
    | Got(t: Task)
    | Empty
    | Retry

  /** An operation and what it was answered. */
  datatype Entry = Entry(op: Op, r: Response)

  /** What the environment decides: a spurious failure (weak swap, `Retry`), and how far a batch reaches. */
  datatype Choice = Choice(fail: bool, extra: nat)

  function GroupAt(m: Memory, g: nat): Group {
    if g < |m.groups| then m.groups[g] else Group(0, false)
  }

  function SetGroup(m: Memory, g: nat, x: Group): Memory {
    if g < |m.groups| then m.(groups := m.groups[g := x]) else m
  }

  function DequeAt(q: Queues, w: nat): seq<Task> {
    if w < |q.deques| then q.deques[w] else []
  }

  function TakeFrom(m: Memory, w: nat): (Memory, Response) {
    var xs := DequeAt(m.q, w);
    if xs == [] then (m, Empty) else (m.(q := TakeFront(m.q, w)), Got(xs[0]))
  }

  function Exec(m: Memory, op: Op, ch: Choice): (Memory, Response) {
    match op
    case Local => (m, Ack)
    case NotifyOne => (m, Ack)
    case LoadShutdown => (m, Flag(m.shutdown))
    case StoreShutdown => (m.(shutdown := true), Ack)
    case LoadInFlight => (m, Value(m.inFlight))
    case AddInFlight => (m.(inFlight := m.inFlight + 1), Ack)
    case SubInFlight => (m.(inFlight := m.inFlight - 1), Ack)
    case SwapInFlight(expected) =>
      if m.inFlight == expected && !ch.fail then (m.(inFlight := expected + 1), Swapped(true, expected))
      else (m, Swapped(false, m.inFlight))
    case LoadSleeping => (m, Value(m.sleeping))
    case AddSleeping => (m.(sleeping := m.sleeping + 1), Ack)
    case SubSleeping => (m.(sleeping := m.sleeping - 1), Ack)
    case LoadClosed(g) => (m, Flag(GroupAt(m, g).closed))
    case StoreClosed(g) => (SetGroup(m, g, GroupAt(m, g).(closed := true)), Ack)
    case LoadGroup(g) => (m, Value(GroupAt(m, g).count))
    case AddGroup(g) => (SetGroup(m, g, GroupAt(m, g).(count := GroupAt(m, g).count + 1)), Ack)
    case SubGroup(g) => (SetGroup(m, g, GroupAt(m, g).(count := GroupAt(m, g).count - 1)), Ack)
    case Count(c) => (m.(stats := Bump(m.stats, c)), Ack)
    case Push(t) => (m.(q := PushTask(m.q, t)), Ack)
    case PopLocal(w) => TakeFrom(m, w)
    case StealFrom(v) => if ch.fail then (m, Retry) else TakeFrom(m, v)
    case Batch(p, w) =>
      if ch.fail || w >= |m.q.deques| then (m, Retry)
      else if Injector(m.q, p) == [] then (m, Empty)
      else (m.(q := TakeBatch(m.q, p, w, ch.extra)), Got(Injector(m.q, p)[0]))
  }
}
