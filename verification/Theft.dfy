/** Stealing along a run: what its statistics count, and how the victims rotate from one search to the next. */
module Theft {
  import opened Sums
  import opened Memory
  import opened Programs
  import opened Victims
  import opened Machine
  import opened Custody
  import opened Ledger

  // ---------- What the statistics count ----------

  /** How a steal can end. */
  datatype End = Hit | Miss | Undecided

  predicate EndsIn(r: Response, end: End) {
    match end
    case Hit => r.Got?
    case Miss => r.Empty?
    case Undecided => r.Retry?
  }

  /** The event is a steal from a peer that ends this way. */
  predicate IsSteal(s: State, e: Event, end: End) {
    && e.Work? && e.w < |s.workers| && WorkerOp(e.w, s.workers[e.w].pc).StealFrom?
    && EndsIn(WorkResponse(s, e.w, e.ch), end)
  }

  /** The steals that have ended this way up to state j. */
  function Steals(r: seq<State>, es: seq<Event>, j: nat, end: End): nat
    requires j <= |es| < |r|
  {
    if j == 0 then 0 else Steals(r, es, j - 1, end) + if IsSteal(r[j - 1], es[j - 1], end) then 1 else 0
  }

  /** Counted as an attempt, not yet tried. */
  function Trying(me: Worker): int { Indicator(me.pc.Pop? && me.pc.probe.Steal?) }

  /** Found nothing, not yet counted as a failure. */
  function Missing(me: Worker): int { Indicator(me.pc.Pop? && me.pc.probe.Missed?) }

  /** Stole a task, not yet counted as a success. */
  function Boasting(me: Worker): int { Indicator(me.pc.Stolen?) }

  lemma StealAnswer(m: Memory, op: Op, ch: Choice)
    requires op.StealFrom?
    ensures var r := Exec(m, op, ch).1; r.Got? || r.Empty? || r.Retry?
  {
  }

  /** One step of a worker, whatever it is answered: each of the three claims moves with its own operation. */
  lemma StealEnd(me: Worker, w: nat, n: nat, r: Response, queued: set<nat>)
    requires WorkerOk(me.pc) && (WorkerOp(w, me.pc).StealFrom? ==> r.Got? || r.Empty? || r.Retry?)
    ensures var me', op := WorkerAfter(me, w, n, r, queued), WorkerOp(w, me.pc);
            && Trying(me') - Trying(me) == Indicator(op == Count(Attempted)) - Indicator(op.StealFrom?)
            && Missing(me') - Missing(me) == Indicator(op.StealFrom? && r.Empty?) - Indicator(op == Count(Failures))
            && Boasting(me') - Boasting(me) == Indicator(op.StealFrom? && r.Got?) - Indicator(op == Count(Succeeded))
  {
    if AtPeers(me.pc) { PeerEnd(me, w, n, r, queued); }
    else if me.pc.Pop? { ProbeEnd(me, w, n, r, queued); }
  }

  lemma PeerEnd(me: Worker, w: nat, n: nat, r: Response, queued: set<nat>)
    requires WorkerOk(me.pc) && AtPeers(me.pc) && (WorkerOp(w, me.pc).StealFrom? ==> r.Got? || r.Empty? || r.Retry?)
    ensures var me', op := WorkerAfter(me, w, n, r, queued), WorkerOp(w, me.pc);
            && Trying(me') - Trying(me) == Indicator(op == Count(Attempted)) - Indicator(op.StealFrom?)
            && Missing(me') - Missing(me) == Indicator(op.StealFrom? && r.Empty?) - Indicator(op == Count(Failures))
            && Boasting(me') - Boasting(me) == Indicator(op.StealFrom? && r.Got?) - Indicator(op == Count(Succeeded))
  {
  }

  lemma ProbeEnd(me: Worker, w: nat, n: nat, r: Response, queued: set<nat>)
    requires me.pc.Pop? && !AtPeers(me.pc)
    ensures var me' := WorkerAfter(me, w, n, r, queued); Trying(me') == Missing(me') == Boasting(me') == 0
    ensures var op := WorkerOp(w, me.pc);
            !op.StealFrom? && op != Count(Attempted) && op != Count(Failures) && op != Count(Succeeded)
  {
  }

  ghost predicate StealsBalance(r: seq<State>, es: seq<Event>, j: nat)
    requires j <= |es| < |r|
  {
    var s, st := r[j], r[j].mem.stats;
    && st.failures + Sum(s.workers, Missing) == Steals(r, es, j, Miss)
    && st.succeeded + Sum(s.workers, Boasting) == Steals(r, es, j, Hit)
    && st.attempted == Steals(r, es, j, Hit) + Steals(r, es, j, Miss) + Steals(r, es, j, Undecided)
                       + Sum(s.workers, Trying)
  }

  /** What a step of a worker adds to the failures, successes and attempts, counted and not yet counted. */
  lemma WorkSteals(s: State, w: nat, ch: Choice)
    requires WellFormed(s) && Enabled(s, Work(w, ch))
    ensures var s', st := Next(s, Work(w, ch)), s.mem.stats;
            var st' := s'.mem.stats;
            && st'.failures + Sum(s'.workers, Missing)
               == st.failures + Sum(s.workers, Missing) + Indicator(IsSteal(s, Work(w, ch), Miss))
            && st'.succeeded + Sum(s'.workers, Boasting)
               == st.succeeded + Sum(s.workers, Boasting) + Indicator(IsSteal(s, Work(w, ch), Hit))
            && st'.attempted - Sum(s'.workers, Trying)
               == st.attempted - Sum(s.workers, Trying) + Indicator(WorkerOp(w, s.workers[w].pc).StealFrom?)
  {
    var op := WorkerOp(w, s.workers[w].pc);
    assert WorkerOk(s.workers[w].pc);
    if op.StealFrom? { StealAnswer(s.mem, op, ch); }
    StealOp(s.mem, op, ch);
    StealEnd(s.workers[w], w, |s.workers|, WorkResponse(s, w, ch), QueuedIds(s.tasks));
    WorkerSum(s, w, ch, Trying);
    WorkerSum(s, w, ch, Missing);
    WorkerSum(s, w, ch, Boasting);
  }

  /** A steal ends in exactly one way. */
  lemma OneEnd(s: State, w: nat, ch: Choice)
    requires w < |s.workers|
    ensures Indicator(WorkerOp(w, s.workers[w].pc).StealFrom?)
            == Indicator(IsSteal(s, Work(w, ch), Hit)) + Indicator(IsSteal(s, Work(w, ch), Miss))
               + Indicator(IsSteal(s, Work(w, ch), Undecided))
  {
    var op := WorkerOp(w, s.workers[w].pc);
    if op.StealFrom? { StealAnswer(s.mem, op, ch); }
  }

  /** Nobody but a worker counts steals. */
  lemma OthersNeverSteal(s: State, e: Event)
    requires Enabled(s, e) && !e.Work?
    ensures var s' := Next(s, e);
            && s'.workers == s.workers && s'.mem.stats.failures == s.mem.stats.failures
            && s'.mem.stats.succeeded == s.mem.stats.succeeded && s'.mem.stats.attempted == s.mem.stats.attempted
  {
    if e.Submit? { CallDelta(s.calls[e.c], s.mem, s.cfg.capacity, |s.tasks|, e.ch); }
  }

  lemma StealsNext(r: seq<State>, es: seq<Event>, j: nat)
    requires Run(r, es) && Init(r[0]) && j < |es| && StealsBalance(r, es, j)
    ensures StealsBalance(r, es, j + 1)
  {
    RunInvariant(r, es, j);
    assert StepAt(r, es, j);
    if es[j].Work? {
      WorkSteals(r[j], es[j].w, es[j].ch);
      OneEnd(r[j], es[j].w, es[j].ch);
    } else {
      OthersNeverSteal(r[j], es[j]);
    }
  }

  /**
   * In every state the failures counted, plus those not yet counted, are the steals so far that found nothing; the
   * successes counted, plus those not yet counted, are the tasks stolen so far; and the attempts counted are all steals
   * so far plus those about to be tried.
   */
  lemma {:induction false} StealStatistics(r: seq<State>, es: seq<Event>, j: nat)
    requires Run(r, es) && Init(r[0]) && j < |r|
    ensures StealsBalance(r, es, j)
  {
    if j == 0 {
      SumConstant(r[0].workers, Trying, 0);
      SumConstant(r[0].workers, Missing, 0);
      SumConstant(r[0].workers, Boasting, 0);
    } else {
      StealStatistics(r, es, j - 1);
      StealsNext(r, es, j - 1);
    }
  }

  // ---------- How the victims rotate ----------

  /** The worker turns to its peers at this event. */
  predicate TurnsToPeers(s: State, e: Event, w: nat) {
    e.Work? && e.w == w && w < |s.workers| && s.workers[w].pc.Pop? && s.workers[w].pc.probe.Choose?
  }

  /** How often worker w has turned to its peers up to state j. */
  function PeerTurns(r: seq<State>, es: seq<Event>, j: nat, w: nat): nat
    requires j <= |es| < |r|
  {
    if j == 0 then 0 else PeerTurns(r, es, j - 1, w) + if TurnsToPeers(r[j - 1], es[j - 1], w) then 1 else 0
  }

  lemma CursorStep(me: Worker, w: nat, n: nat, r: Response, queued: set<nat>)
    ensures WorkerAfter(me, w, n, r, queued).cursor
            == me.cursor + Indicator(n > 1 && me.pc.Pop? && me.pc.probe.Choose?)
  {
  }

  lemma {:induction false} CursorCounts(r: seq<State>, es: seq<Event>, j: nat, w: nat)
    requires Run(r, es) && Init(r[0]) && j < |r| && w < |r[0].workers|
    ensures |r[j].workers| == |r[0].workers|
    ensures r[j].workers[w].cursor == if |r[0].workers| > 1 then PeerTurns(r, es, j, w) else 0
  {
    if j > 0 {
      CursorCounts(r, es, j - 1, w);
      assert StepAt(r, es, j - 1);
      var s, e := r[j - 1], es[j - 1];
      if e.Work? && e.w == w {
        CursorStep(s.workers[w], w, |s.workers|, WorkResponse(s, w, e.ch), QueuedIds(s.tasks));
      }
    }
  }

  /**
   * The k-th time a worker turns to its peers, counting from zero, it goes round the ring from one past itself plus k:
   * so over any n consecutive times it probes first whom `RotationIsFair` says.
   */
  lemma VictimsRotate(r: seq<State>, es: seq<Event>, j: nat, w: nat)
    requires Run(r, es) && Init(r[0]) && j < |es| && TurnsToPeers(r[j], es[j], w) && |r[0].workers| > 1
    ensures |r[j].workers| == |r[j + 1].workers| == |r[0].workers|
    ensures var n, k, pc' := |r[0].workers|, PeerTurns(r, es, j, w), r[j + 1].workers[w].pc;
            && pc'.Pop? && pc'.probe.Attempt? && pc'.probe.victims != []
            && InRingOrder(n, (w + 1 + k) % n, pc'.probe.victims)
            && (forall v: nat :: v in pc'.probe.victims <==> v < n && v != w)
            && pc'.probe.victims[0] == FirstVictim(n, w, k)
  {
    assert StepAt(r, es, j);
    assert w < |r[0].workers| by { SameWorkers(r, es, 0, j); }
    CursorCounts(r, es, j, w);
    var n, k := |r[0].workers|, PeerTurns(r, es, j, w);
    VictimListIsPermutation(n, w, k);
    VictimListInOrder(n, w, k);
    FirstVictimIsHead(n, w, k);
  }
}
