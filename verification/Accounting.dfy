/** What custody and balances mean for a user of the scheduler: exactly-once execution and exact counters. */
module Accounting {
  import opened Sums
  import opened Queues
  import opened Programs
  import opened Machine
  import opened Custody
  import opened Ledger
  import opened Theft

  function Holding(t: Task): Worker -> int {
    (me: Worker) => Indicator(Hand(me.pc).Some? && Hand(me.pc).value.0 == t)
  }

  /**
   * In every reachable state a published task is in exactly one place, counting with multiplicity: once in the
   * injectors and deques, or in one worker's hand, or done. Its callback has run once if and only if the task has
   * been taken and worked on, and never twice.
   */
  lemma ExactlyOnce(r: seq<State>, es: seq<Event>, i: nat, id: nat)
    requires Run(r, es) && Init(r[0]) && i < |r| && id < |r[i].tasks|
    ensures var s := r[i]; var t := s.tasks[id].task;
            && Bag(s.mem.q)[t] + Sum(s.workers, Holding(t)) + Indicator(s.tasks[id].phase == Done) == 1
            && s.tasks[id].runs <= 1
            && (s.tasks[id].phase == Done ==> s.tasks[id].runs == 1)
            && (t in Bag(s.mem.q) ==> s.tasks[id].runs == 0)
  {
    RunInvariant(r, es, i);
    var s := r[i];
    var t := s.tasks[id].task;
    assert RecordOk(s.mem, s.tasks[id], id);
    assert Bag(s.mem.q)[t] == Indicator(IsQueued(s.tasks, t));
    forall w | 0 <= w < |s.workers|
      ensures Holding(t)(s.workers[w]) == Indicator(s.tasks[id].phase.Held? && s.tasks[id].phase.w == w)
    {
      assert Holds(s.tasks, w, Hand(s.workers[w].pc));
    }
    if s.tasks[id].phase.Held? {
      SumSingle(s.workers, Holding(t), s.tasks[id].phase.w);
    } else {
      SumConstant(s.workers, Holding(t), 0);
    }
  }

  /** Each accepted submission is one published task of its own, with the caller's priority and group. */
  lemma AcceptedOnce(r: seq<State>, es: seq<Event>, i: nat, c: nat, d: nat)
    requires Run(r, es) && Init(r[0]) && i < |r| && c < |r[i].calls| && d < |r[i].calls|
    requires r[i].calls[c].pc.Returned? && r[i].calls[c].pc.outcome.Accepted?
    ensures var s := r[i]; var id := s.calls[c].pc.outcome.id;
            && id < |s.tasks| && s.tasks[id].task == Task(id, s.calls[c].priority, s.calls[c].group)
            && (PublishedId(s.calls[d].pc) == Some(id) ==> c == d)
  {
    RunInvariant(r, es, i);
    assert CallPublished(r[i], c) && CallPublished(r[i], d);
  }

  /** A submission that ended in an error never published anything. */
  lemma RejectedNever(r: seq<State>, es: seq<Event>, i: nat, c: nat, id: nat)
    requires Run(r, es) && Init(r[0]) && i < |r| && c < |r[i].calls| && id < |r[i].tasks|
    requires r[i].calls[c].pc.Returned? && !r[i].calls[c].pc.outcome.Accepted?
    ensures r[i].tasks[id].caller != c
  {
    RunInvariant(r, es, i);
  }

  /**
   * The in-flight count is, at every moment, the reserved but unpublished submissions, plus the queued tasks, plus the
   * tasks taken whose slot is not yet given back: a rolled-back submission leaves no residue.
   */
  lemma SlotAccount(r: seq<State>, es: seq<Event>, i: nat)
    requires Run(r, es) && Init(r[0]) && i < |r|
    ensures var s := r[i];
            s.mem.inFlight == Sum(s.calls, Reserved) + Size(s.mem.q) + Sum(s.tasks, Executing)
  {
    RunInvariant(r, es, i);
  }

  /** The same for each group: its count also covers the tasks between the two decrements. */
  lemma GroupAccount(r: seq<State>, es: seq<Event>, i: nat, g: nat)
    requires Run(r, es) && Init(r[0]) && i < |r| && g < |r[i].mem.groups|
    ensures var s := r[i];
            s.mem.groups[g].count == Sum(s.calls, Registered(g)) + Sum(s.tasks, QueuedIn(g)) + Sum(s.tasks, HeldIn(g))
  {
    RunInvariant(r, es, i);
    assert GroupBalance(r[i], g);
    SumAdd(r[i].tasks, QueuedIn(g), HeldIn(g), Member(g));
  }

  function QueuedIn(g: nat): Record -> int {
    (rec: Record) => Indicator(rec.task.group == Some(g) && rec.phase == Queued)
  }

  function HeldIn(g: nat): Record -> int {
    (rec: Record) => Indicator(rec.task.group == Some(g) && rec.phase.Held?)
  }

  /** No decrement ever wraps below zero: all the counts are non-negative in every state. */
  lemma NoUnderflow(r: seq<State>, es: seq<Event>, i: nat)
    requires Run(r, es) && Init(r[0]) && i < |r|
    ensures r[i].mem.inFlight >= 0 && r[i].mem.sleeping >= 0
    ensures forall g :: 0 <= g < |r[i].mem.groups| ==> r[i].mem.groups[g].count >= 0
  {
    RunInvariant(r, es, i);
    var s := r[i];
    SumNonNegative(s.calls, Reserved);
    SumNonNegative(s.tasks, Waiting);
    SumNonNegative(s.tasks, Executing);
    SumNonNegative(s.workers, Sleeper);
    forall g | 0 <= g < |s.mem.groups|
      ensures s.mem.groups[g].count >= 0
    {
      assert GroupBalance(s, g);
      SumNonNegative(s.calls, Registered(g));
      SumNonNegative(s.tasks, Member(g));
    }
  }

  /**
   * Submissions counted plus those between publishing and counting equal completions counted plus what is queued plus
   * what is taken but not counted yet; every steal attempt has ended one way or is in progress; and the failures and
   * successes counted, with those not yet counted, are the steals that found nothing and the tasks stolen.
   */
  lemma StatisticsBalance(r: seq<State>, es: seq<Event>, i: nat)
    requires Run(r, es) && Init(r[0]) && i < |r|
    ensures var s := r[i]; var st := s.mem.stats;
            && st.submitted + Sum(s.calls, Unrecorded) == st.completed + Size(s.mem.q) + Sum(s.tasks, Uncounted)
            && st.attempted == st.succeeded + st.failures + Sum(s.workers, PeerRetries) + Sum(s.workers, Stealing)
            && st.failures + Sum(s.workers, Missing) == Steals(r, es, i, Miss)
            && st.succeeded + Sum(s.workers, Boasting) == Steals(r, es, i, Hit)
            && st.rejectedFull == Sum(s.calls, Rejected)
            && st.fairnessYields == Sum(s.workers, Detours)
  {
    RunInvariant(r, es, i);
    StealStatistics(r, es, i);
    var s := r[i];
    SumAdd(s.tasks, Waiting, Uncounted, Pending);
    SumAdd(s.tasks, Pending, Counted, Any);
    SumConstant(s.tasks, Any, 1);
  }

  function Pending(rec: Record): int { Waiting(rec) + Uncounted(rec) }

  function Any(rec: Record): int { 1 }

  /** `sleeping_workers` counts the workers between announcing and retracting sleep; when all have left it is zero. */
  lemma SleepingAccount(r: seq<State>, es: seq<Event>, i: nat)
    requires Run(r, es) && Init(r[0]) && i < |r|
    ensures var s := r[i];
            && s.mem.sleeping == Sum(s.workers, Sleeper)
            && 0 <= s.mem.sleeping <= |s.workers|
            && ((forall w :: 0 <= w < |s.workers| ==> s.workers[w].pc == Exited) ==> s.mem.sleeping == 0)
  {
    RunInvariant(r, es, i);
    var s := r[i];
    SumNonNegative(s.workers, Sleeper);
    SumLe(s.workers, Sleeper, One);
    SumConstant(s.workers, One, 1);
    if forall w :: 0 <= w < |s.workers| ==> s.workers[w].pc == Exited {
      SumConstant(s.workers, Sleeper, 0);
    }
  }

  function One(me: Worker): int { 1 }
}
