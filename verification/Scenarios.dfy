/**
 * Short concrete runs with a single worker. They show that a task of a group is accepted, executed and waited for, that
 * a worker does go to sleep, and that the notification of a task it leaves behind can come before it blocks.
 */
module Scenarios {
  import opened Queues
  import opened Memory
  import opened Programs
  import opened Machine
  import opened Ledger
  import opened Departure
  import opened Admission
  import opened Sleeping

  /** A run under construction. */
  datatype Story = Story(states: seq<State>, events: seq<Event>)

  ghost predicate Tells(y: Story, s: State) {
    Run(y.states, y.events) && Init(y.states[0]) && y.states[|y.events|] == s
  }

  predicate Continues(y: Story, z: Story) {
    y.states <= z.states && y.events <= z.events
  }

  lemma Tell(y: Story, s: State, e: Event) returns (z: Story, s': State)
    requires Tells(y, s) && Enabled(s, e)
    ensures Tells(z, s') && Continues(y, z) && s' == Next(s, e)
    ensures |z.events| == |y.events| + 1 && z.events[|y.events|] == e
  {
    s' := Next(s, e);
    z := Story(y.states + [s'], y.events + [e]);
    forall i | 0 <= i < |z.events|
      ensures StepAt(z.states, z.events, i)
    {
      if i < |y.events| { assert StepAt(y.states, y.events, i); }
    }
  }

  const NOTHING_QUEUED := Queues([], [], [], [[]])

  /** One worker, unlimited capacity, running. */
  ghost predicate Plain(s: State) {
    s.cfg == Config(0, 0) && !s.mem.shutdown && |s.workers| == 1 && |s.mem.q.deques| == 1
  }

  lemma Once() returns (y: Story, s: State)
    ensures Tells(y, s) && Plain(s) && s.calls == [] && s.tasks == [] && s.waiters == [] && s.workers == [NEW_WORKER]
    ensures s.mem == Memory(false, 0, 0, [], Stats(0, 0, 0, 0, 0, 0, 0), NOTHING_QUEUED)
  {
    s := State(Config(0, 0), Memory(false, 0, 0, [], Stats(0, 0, 0, 0, 0, 0, 0), NOTHING_QUEUED), [], [],
               [NEW_WORKER], []);
    y := Story([s], []);
  }

  // ---------- A submission without interruption ----------

  ghost predicate OpenFor(m: Memory, group: Option<nat>) {
    group.Some? ==> group.value < |m.groups| && !m.groups[group.value].closed
  }

  /** The groups with one more entry in this one. */
  function Entered(groups: seq<Group>, group: Option<nat>): seq<Group> {
    if group.Some? && group.value < |groups|
    then groups[group.value := groups[group.value].(count := groups[group.value].count + 1)]
    else groups
  }

  /** One step of call c, which changes nothing but its position and the memory. */
  lemma CallOne(y: Story, s: State, c: nat) returns (z: Story, s': State)
    requires Tells(y, s) && c < |s.calls| && !s.calls[c].pc.Returned? && !s.calls[c].pc.Publish?
    ensures Tells(z, s') && Continues(y, z) && |z.events| == |y.events| + 1 && OwnCall(z.events[|y.events|], c)
    ensures var (m, a) := Exec(s.mem, CallOp(s.calls[c], |s.tasks|), NO_CHOICE);
            s' == s.(mem := m, calls := s.calls[c := s.calls[c].(pc := CallAfter(s.calls[c], s.cfg.capacity,
                                                                                 |s.tasks|, a))])
  {
    z, s' := Tell(y, s, Submit(c, NO_CHOICE));
  }

  /** From the invocation to the re-check. */
  lemma GetsSlot(y: Story, s: State, p: Priority, group: Option<nat>) returns (z: Story, s': State)
    requires Tells(y, s) && Plain(s) && OpenFor(s.mem, group)
    ensures Tells(z, s') && Continues(y, z)
    ensures s' == s.(mem := s.mem.(inFlight := s.mem.inFlight + 1), calls := s.calls + [Call(p, group, Recheck)])
  {
    var c := |s.calls|;
    z, s' := Tell(y, s, Invoke(p, group));
    z, s' := CallOne(z, s', c);
    assert s'.calls == s.calls + [Call(p, group, Reserve)];
    z, s' := CallOne(z, s', c);
    assert s'.calls == s.calls + [Call(p, group, Recheck)];
  }

  /** From the re-check to the last check. */
  lemma GetsEntry(y: Story, s: State, c: nat) returns (z: Story, s': State)
    requires Tells(y, s) && Plain(s) && c < |s.calls| && s.calls[c].pc == Recheck && OpenFor(s.mem, s.calls[c].group)
    ensures Tells(z, s') && Continues(y, z)
    ensures s' == s.(mem := s.mem.(groups := Entered(s.mem.groups, s.calls[c].group)),
                     calls := s.calls[c := s.calls[c].(pc := FinalCheck)])
  {
    z, s' := CallOne(y, s, c);
    if s.calls[c].group.Some? {
      assert s' == s.(calls := s.calls[c := s.calls[c].(pc := GroupCheck)]);
      z, s' := CallOne(z, s', c);
      assert s' == s.(calls := s.calls[c := s.calls[c].(pc := GroupAdd)]);
      z, s' := CallOne(z, s', c);
      assert s' == s.(mem := s.mem.(groups := Entered(s.mem.groups, s.calls[c].group)),
                      calls := s.calls[c := s.calls[c].(pc := GroupRecheck)]);
      z, s' := CallOne(z, s', c);
    }
  }

  /** From the last check to the look at the sleepers. */
  lemma Publishes(y: Story, s: State, c: nat) returns (z: Story, s': State)
    requires Tells(y, s) && Plain(s) && c < |s.calls| && s.calls[c].pc == FinalCheck
    ensures Tells(z, s') && Continues(y, z)
    ensures var task := Task(|s.tasks|, s.calls[c].priority, s.calls[c].group);
            s' == s.(mem := s.mem.(stats := Bump(s.mem.stats, Submitted), q := PushTask(s.mem.q, task)),
                     calls := s.calls[c := s.calls[c].(pc := WakeCheck(|s.tasks|))],
                     tasks := s.tasks + [Record(task, c, Queued, 0)])
  {
    z, s' := CallOne(y, s, c);
    assert s' == s.(calls := s.calls[c := s.calls[c].(pc := Publish)]);
    z, s' := Tell(z, s', Submit(c, NO_CHOICE));
    assert s'.calls == s.calls[c := s.calls[c].(pc := NoteSubmit(|s.tasks|))];
    z, s' := CallOne(z, s', c);
    assert s'.calls == s.calls[c := s.calls[c].(pc := WakeCheck(|s.tasks|))];
  }

  /** It publishes its task; it has yet to look at the sleepers. */
  lemma SubmitsOne(y: Story, s: State, p: Priority, group: Option<nat>) returns (z: Story, s': State)
    requires Tells(y, s) && Plain(s) && OpenFor(s.mem, group)
    ensures Tells(z, s') && Continues(y, z) && Plain(s') && s'.workers == s.workers && s'.waiters == s.waiters
    ensures s'.calls == s.calls + [Call(p, group, WakeCheck(|s.tasks|))]
    ensures s'.tasks == s.tasks + [Record(Task(|s.tasks|, p, group), |s.calls|, Queued, 0)]
    ensures s'.mem.groups == Entered(s.mem.groups, group) && s'.mem.sleeping == s.mem.sleeping
    ensures s'.mem.q == PushTask(s.mem.q, Task(|s.tasks|, p, group))
  {
    var c := |s.calls|;
    z, s' := GetsSlot(y, s, p, group);
    z, s' := GetsEntry(z, s', c);
    assert s'.calls == s.calls + [Call(p, group, FinalCheck)];
    z, s' := Publishes(z, s', c);
    assert s'.calls == s.calls + [Call(p, group, WakeCheck(|s.tasks|))];
  }

  // ---------- A task of a group ----------

  /** One step of the only worker. */
  lemma WorkerOne(y: Story, s: State) returns (z: Story, s': State)
    requires Tells(y, s) && Plain(s) && s.workers[0].pc != Exited
    ensures Tells(z, s') && Continues(y, z) && |z.events| == |y.events| + 1 && OwnStep(z.events[|y.events|], 0)
    ensures var (m, a) := Exec(s.mem, WorkerOp(0, s.workers[0].pc), NO_CHOICE);
            var me := WorkerAfter(s.workers[0], 0, 1, a, QueuedIds(s.tasks));
            s' == s.(mem := m, workers := [me], tasks := Follow(s.tasks, 0, s.workers[0].pc, me.pc))
  {
    z, s' := Tell(y, s, Work(0, NO_CHOICE));
    assert s'.workers == [s'.workers[0]];
  }

  /** The worker looks as far as the NORMAL injector. */
  lemma LooksToNormal(y: Story, s: State) returns (z: Story, s': State)
    requires Tells(y, s) && Plain(s) && s.workers == [NEW_WORKER] && s.mem.q.high == [] && s.mem.q.deques == [[]]
    ensures Tells(z, s') && Continues(y, z)
    ensures s' == s.(workers := [NEW_WORKER.(pc := Pop(Fast, TryNormal), snapshot := QueuedIds(s.tasks))])
  {
    var me := NEW_WORKER.(snapshot := QueuedIds(s.tasks));
    z, s' := WorkerOne(y, s);
    assert s' == s.(workers := [me.(pc := Pop(Fast, TryLocal))]);
    z, s' := WorkerOne(z, s');
    assert s' == s.(workers := [me.(pc := Pop(Fast, TryHigh))]);
    z, s' := WorkerOne(z, s');
  }

  /** The worker takes the only task there is, a NORMAL one. */
  lemma TakesNormal(y: Story, s: State, t: Task) returns (z: Story, s': State)
    requires Tells(y, s) && Plain(s) && s.workers == [NEW_WORKER] && s.mem.q == Queues([], [t], [], [[]])
    requires t.id == 0 && |s.tasks| == 1 && s.tasks[0].task == t
    ensures Tells(z, s') && Continues(y, z) && Plain(s') && s'.calls == s.calls && s'.waiters == s.waiters
    ensures s'.mem == s.mem.(q := NOTHING_QUEUED)
    ensures s'.workers[0].pc == Running(t) && s'.tasks == [s.tasks[0].(phase := Held(0, Taken))]
  {
    z, s' := LooksToNormal(y, s);
    TakesOnly(s'.mem, t);
    z, s' := WorkerOne(z, s');
  }

  lemma TakesOnly(m: Memory, t: Task)
    requires m.q == Queues([], [t], [], [[]])
    ensures Exec(m, Batch(Normal, 0), NO_CHOICE) == (m.(q := NOTHING_QUEUED), Got(t))
  {
    assert m.q.deques[0] + [t][1..1] == m.q.deques[0] && [t][1..] == [];
    assert TakeBatch(m.q, Normal, 0, 0).deques == m.q.deques;
  }

  /** It runs it and counts it. */
  lemma RunsIt(y: Story, s: State, t: Task) returns (z: Story, s': State)
    requires Tells(y, s) && Plain(s) && s.workers[0].pc == Running(t)
    requires t.id == 0 && |s.tasks| == 1 && s.tasks[0].runs == 0
    ensures Tells(z, s') && Continues(y, z) && Plain(s') && s'.calls == s.calls && s'.waiters == s.waiters
    ensures s'.workers[0].pc == ReleaseSlot(t) && s'.tasks == [s.tasks[0].(phase := Held(0, Recorded), runs := 1)]
    ensures s'.mem.groups == s.mem.groups
  {
    z, s' := WorkerOne(y, s);
    assert s' == s.(workers := s'.workers, tasks := [s.tasks[0].(phase := Held(0, Ran), runs := 1)]);
    assert s'.workers[0].pc == NoteDone(t);
    z, s' := WorkerOne(z, s');
  }

  /** And lets go of it. */
  lemma LetsGoOfIt(y: Story, s: State, t: Task, g: nat) returns (z: Story, s': State)
    requires Tells(y, s) && Plain(s) && s.workers[0].pc == ReleaseSlot(t) && t.group == Some(g) && g < |s.mem.groups|
    requires t.id == 0 && |s.tasks| == 1
    ensures Tells(z, s') && Continues(y, z) && Plain(s') && s'.calls == s.calls && s'.waiters == s.waiters
    ensures s'.tasks == [s.tasks[0].(phase := Done)]
    ensures s'.mem.groups == s.mem.groups[g := s.mem.groups[g].(count := s.mem.groups[g].count - 1)]
  {
    z, s' := WorkerOne(y, s);
    assert s'.workers[0].pc == ReleaseGroup(t) && s'.tasks == [s.tasks[0].(phase := Held(0, SlotFreed))];
    z, s' := WorkerOne(z, s');
  }

  /** Accepted: nobody sleeps, so there is nobody to notify. */
  lemma AcceptedIn(y: Story, s: State) returns (z: Story, s': State)
    requires Tells(y, s) && Plain(s) && |s.calls| == 1 && s.calls[0].pc == WakeCheck(0) && s.mem.sleeping == 0
    ensures Tells(z, s') && Continues(y, z) && s' == s.(calls := [s.calls[0].(pc := Returned(Accepted(0)))])
  {
    z, s' := CallOne(y, s, 0);
  }

  /** A task is submitted to an open group and accepted. */
  lemma GroupTaskArrives() returns (y: Story, s: State, t: Task)
    ensures Tells(y, s) && Plain(s) && t == Task(0, Normal, Some(0)) && s.mem.q == Queues([], [t], [], [[]])
    ensures s.calls == [Call(Normal, Some(0), Returned(Accepted(0)))] && s.tasks == [Record(t, 0, Queued, 0)]
    ensures s.workers == [NEW_WORKER] && s.waiters == [] && s.mem.groups == [Group(1, false)]
  {
    t := Task(0, Normal, Some(0));
    y, s := Once();
    y, s := Tell(y, s, NewGroup);
    assert s.mem.groups == [Group(0, false)];
    y, s := SubmitsOne(y, s, Normal, Some(0));
    assert s.mem.groups == [Group(1, false)] && s.tasks == [Record(t, 0, Queued, 0)];
    y, s := AcceptedIn(y, s);
  }

  /** A wait for a group with count zero returns with its first check. */
  lemma WaitsForGroup(y: Story, s: State) returns (z: Story, s': State)
    requires Tells(y, s) && s.waiters == [] && |s.mem.groups| == 1 && s.mem.groups[0].count == 0
    ensures Tells(z, s') && Continues(y, z)
    ensures s' == s.(waiters := [Waiter(OfGroup(0), Released(|s.tasks|), |s.tasks|)])
  {
    z, s' := Tell(y, s, StartWait(OfGroup(0)));
    z, s' := Tell(z, s', Wait(0));
  }

  /** In a running scheduler a task of an open group is accepted, executed once, and waited for by its group. */
  lemma GroupTaskRuns() returns (r: seq<State>, es: seq<Event>)
    ensures Run(r, es) && Init(r[0])
    ensures var s := r[|es|];
            && s.calls == [Call(Normal, Some(0), Returned(Accepted(0)))]
            && |s.tasks| == 1 && s.tasks[0].phase == Done && s.tasks[0].runs == 1
            && s.mem.groups == [Group(0, false)] && s.waiters == [Waiter(OfGroup(0), Released(1), 1)]
  {
    var y, s, t := GroupTaskArrives();
    y, s := TakesNormal(y, s, t);
    y, s := RunsIt(y, s, t);
    y, s := LetsGoOfIt(y, s, t, 0);
    assert s.mem.groups == [Group(0, false)];
    y, s := WaitsForGroup(y, s);
    r, es := y.states, y.events;
  }

  // ---------- Going to sleep ----------

  /** A search of the only worker with nothing queued. */
  lemma LooksInVain(y: Story, s: State, site: Site) returns (z: Story, s': State)
    requires Tells(y, s) && Plain(s) && s.mem.q == NOTHING_QUEUED
    requires s.workers[0].pc == Pop(site, Enter) && s.workers[0].streak == 0
    ensures Tells(z, s') && Continues(y, z) && |z.events| == |y.events| + 6
    ensures s' == s.(workers := [s.workers[0].(pc := LoadStop(site), snapshot := QueuedIds(s.tasks))])
  {
    var me := s.workers[0].(snapshot := QueuedIds(s.tasks));
    z, s' := WorkerOne(y, s);
    assert s' == s.(workers := [me.(pc := Pop(site, TryLocal))]);
    z, s' := WorkerOne(z, s');
    assert s' == s.(workers := [me.(pc := Pop(site, TryHigh))]);
    z, s' := LooksOn(z, s', site);
  }

  lemma LooksOn(y: Story, s: State, site: Site) returns (z: Story, s': State)
    requires Tells(y, s) && Plain(s) && s.mem.q == NOTHING_QUEUED && s.workers[0].pc == Pop(site, TryHigh)
    ensures Tells(z, s') && Continues(y, z) && |z.events| == |y.events| + 4
    ensures s' == s.(workers := [s.workers[0].(pc := LoadStop(site))])
  {
    var me := s.workers[0];
    z, s' := WorkerOne(y, s);
    assert s' == s.(workers := [me.(pc := Pop(site, TryNormal))]);
    z, s' := WorkerOne(z, s');
    assert s' == s.(workers := [me.(pc := Pop(site, TryLow))]);
    z, s' := WorkerOne(z, s');
    assert s' == s.(workers := [me.(pc := Pop(site, Choose))]);
    z, s' := WorkerOne(z, s');
  }

  /** The worker looks twice, announces its sleep and looks again. */
  lemma DozesOff() returns (y: Story, s: State)
    ensures Tells(y, s) && Plain(s) && s.mem.q == NOTHING_QUEUED && s.mem.sleeping == 1
    ensures s.calls == [] && s.tasks == [] && s.workers[0].pc == LoadStop(Asleep) && s.workers[0].streak == 0
  {
    y, s := Once();
    y, s := LooksInVain(y, s, Fast);
    y, s := WorkerOne(y, s);
    assert s.workers[0].pc == Pop(Locked, Enter) && s.tasks == [];
    y, s := LooksInVain(y, s, Locked);
    y, s := WorkerOne(y, s);
    assert s.workers[0].pc == GoSleep && s.tasks == [];
    y, s := WorkerOne(y, s);
    assert s.workers[0].pc == Pop(Asleep, Enter) && s.mem.sleeping == 1 && s.tasks == [];
    y, s := LooksInVain(y, s, Asleep);
  }

  /** A submission that has published sees the sleeper and notifies. */
  lemma SeesSleeper(y: Story, s: State) returns (z: Story, s': State)
    requires Tells(y, s) && |s.calls| == 1 && s.calls[0].pc == WakeCheck(0) && s.mem.sleeping == 1
    ensures Tells(z, s') && Continues(y, z) && |z.events| == |y.events| + 2
    ensures s' == s.(calls := [s.calls[0].(pc := Returned(Accepted(0)))])
    ensures Notified(z.states, z.events, |y.events|, |y.events| + 1, 0, 0)
  {
    var z1, s1 := CallOne(y, s, 0);
    assert s1 == s.(calls := [s.calls[0].(pc := Notify(0))]);
    z, s' := CallOne(z1, s1, 0);
    assert z.states[|y.events|] == s && z.states[|y.events| + 1] == s1;
  }

  /** A task arrives while the worker is counted as sleeping, and its submission notifies at event q. */
  lemma TaskArrives(y: Story, s: State) returns (z: Story, s': State, q: nat)
    requires Tells(y, s) && Plain(s) && s.mem.q == NOTHING_QUEUED && s.mem.sleeping == 1
    requires s.calls == [] && s.tasks == []
    ensures Tells(z, s') && Continues(y, z) && Plain(s') && s'.workers == s.workers && s'.mem.sleeping == 1
    ensures s'.calls == [Call(Normal, None, Returned(Accepted(0)))]
    ensures s'.tasks == [Record(Task(0, Normal, None), 0, Queued, 0)]
    ensures |y.events| < q < |z.events| && q >= 1 && Notified(z.states, z.events, q - 1, q, 0, 0)
  {
    z, s' := SubmitsOne(y, s, Normal, None);
    assert s'.calls == [Call(Normal, None, WakeCheck(0))];
    assert s'.tasks == [Record(Task(0, Normal, None), 0, Queued, 0)];
    var published := z;
    z, s' := SeesSleeper(published, s');
    q := |published.events| + 1;
  }

  lemma Blocks(y: Story, s: State) returns (z: Story, s': State)
    requires Tells(y, s) && Plain(s) && s.workers[0].pc == LoadStop(Asleep)
    ensures Tells(z, s') && Continues(y, z) && |z.events| == |y.events| + 1 && OwnStep(z.events[|y.events|], 0)
    ensures s' == s.(workers := [s.workers[0].(pc := Blocked)])
  {
    z, s' := WorkerOne(y, s);
  }

  /**
   * The worker's last search finds nothing; then a task is published and its notification sent at event q, and only
   * then, at event x, does the worker block: it is blocked with the task queued and no notification to come.
   */
  lemma NotifiedTooEarly() returns (r: seq<State>, es: seq<Event>, q: nat, x: nat)
    ensures Run(r, es) && Init(r[0]) && q < x < |es| && BlockedSince(r, es, x, |es|, 0)
    ensures q >= 1 && Notified(r, es, q - 1, q, 0, 0)
    ensures var s := r[|es|];
            && s.calls == [Call(Normal, None, Returned(Accepted(0)))]
            && |s.tasks| == 1 && s.tasks[0].phase == Queued && s.tasks[0].caller == 0
  {
    var y, s := DozesOff();
    var z;
    z, s, q := TaskArrives(y, s);
    x := |z.events|;
    var last;
    last, s := Blocks(z, s);
    r, es := last.states, last.events;
    assert r[|es|] == s && r[..|z.states|] == z.states;
  }
}
