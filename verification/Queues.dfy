/** The three priority injectors and one FIFO deque per worker, as values, with the atomic queue operations. */
module Queues {
  import opened Sums

  datatype Option<T> = None | Some(value: T)

  datatype Priority = Low | Normal | High

  /** `id` numbers tasks in the order in which they were published; `group` is the index of the task's group. */
  datatype Task = Task(id: nat, priority: Priority, group: Option<nat>)

  datatype Queues = Queues(high: seq<Task>, normal: seq<Task>, low: seq<Task>, deques: seq<seq<Task>>)

  function Injector(q: Queues, p: Priority): seq<Task> {
    match p
    case High => q.high
    case Normal => q.normal
    case Low => q.low
  }

  function WithInjector(q: Queues, p: Priority, xs: seq<Task>): Queues {
    match p
    case High => q.(high := xs)
    case Normal => q.(normal := xs)
    case Low => q.(low := xs)
  }

  /** `push_global`: each priority goes to the back of its own injector. */
  function PushTask(q: Queues, t: Task): Queues {
    WithInjector(q, t.priority, Injector(q, t.priority) + [t])
  }

  /** How many tasks beyond the head a batch moves: what was asked for, as far as the injector reaches. */
  function Extra(xs: seq<Task>, extra: nat): nat
    requires xs != []
  {
    if extra < |xs| then extra else |xs| - 1
  }

  /** `steal_batch_and_pop`: the head goes to the caller, a further prefix to the back of its deque. */
  function TakeBatch(q: Queues, p: Priority, w: nat, extra: nat): Queues
    requires w < |q.deques| && Injector(q, p) != []
  {
    var xs := Injector(q, p);
    var n := Extra(xs, extra);
    WithInjector(q, p, xs[1 + n..]).(deques := q.deques[w := q.deques[w] + xs[1..1 + n]])
  }

  /** `pop` by the owner and `steal` by a peer both take the front of a deque. */
  function TakeFront(q: Queues, w: nat): Queues
    requires w < |q.deques| && q.deques[w] != []
  {
    q.(deques := q.deques[w := q.deques[w][1..]])
  }

  // ---------- Contents as a multiset ----------

  function DequeBag(ds: seq<seq<Task>>): multiset<Task> {
    if ds == [] then multiset{} else DequeBag(ds[..|ds| - 1]) + multiset(ds[|ds| - 1])
  }

  function InjectorBag(q: Queues): multiset<Task> {
    multiset(q.high) + multiset(q.normal) + multiset(q.low)
  }

  /** Everything queued, with multiplicity. */
  function Bag(q: Queues): multiset<Task> {
    InjectorBag(q) + DequeBag(q.deques)
  }

  function Length(xs: seq<Task>): int {
    |xs|
  }

  /** How many tasks are queued. */
  function Size(q: Queues): int {
    |q.high| + |q.normal| + |q.low| + Sum(q.deques, Length)
  }

  lemma {:induction false} DequeBagUpdate(ds: seq<seq<Task>>, w: nat, xs: seq<Task>)
    requires w < |ds|
    ensures DequeBag(ds[w := xs]) == DequeBag(ds) - multiset(ds[w]) + multiset(xs)
    ensures multiset(ds[w]) <= DequeBag(ds)
  {
    var n := |ds| - 1;
    if w == n {
      assert ds[w := xs][..n] == ds[..n];
    } else {
      assert ds[w := xs][..n] == ds[..n][w := xs];
      DequeBagUpdate(ds[..n], w, xs);
      SwapBag(DequeBag(ds[..n]), multiset(ds[n]), multiset(ds[w]), multiset(xs));
    }
  }

  lemma SwapBag(a: multiset<Task>, b: multiset<Task>, x: multiset<Task>, y: multiset<Task>)
    requires x <= a
    ensures x <= a + b && a - x + y + b == a + b - x + y
  {
  }

  lemma {:induction false} DequeBagEmpty(ds: seq<seq<Task>>)
    requires forall w :: 0 <= w < |ds| ==> ds[w] == []
    ensures DequeBag(ds) == multiset{}
  {
    if ds != [] { DequeBagEmpty(ds[..|ds| - 1]); }
  }

  lemma ConcatBag(xs: seq<Task>, ys: seq<Task>)
    ensures multiset(xs + ys) == multiset(xs) + multiset(ys)
  {
  }

  /** The head, the tasks a batch moves, and the rest. */
  lemma Split(xs: seq<Task>, n: nat)
    requires n < |xs|
    ensures xs == [xs[0]] + xs[1..1 + n] + xs[1 + n..]
  {
  }

  lemma SplitBag(xs: seq<Task>, n: nat)
    requires n < |xs|
    ensures multiset(xs) == multiset{xs[0]} + multiset(xs[1..1 + n]) + multiset(xs[1 + n..])
  {
    Split(xs, n);
  }

  lemma InjectorBagUpdate(q: Queues, p: Priority, xs: seq<Task>)
    ensures InjectorBag(WithInjector(q, p, xs)) == InjectorBag(q) - multiset(Injector(q, p)) + multiset(xs)
    ensures multiset(Injector(q, p)) <= InjectorBag(q)
  {
  }

  lemma PushBag(q: Queues, t: Task)
    ensures Bag(PushTask(q, t)) == Bag(q) + multiset{t}
    ensures Size(PushTask(q, t)) == Size(q) + 1
  {
    var xs := Injector(q, t.priority);
    assert multiset(xs + [t]) == multiset(xs) + multiset{t} by { ConcatBag(xs, [t]); }
    InjectorBagUpdate(q, t.priority, xs + [t]);
    AddBag(InjectorBag(q), multiset(xs), multiset{t}, DequeBag(q.deques));
  }

  lemma AddBag(i: multiset<Task>, x: multiset<Task>, a: multiset<Task>, d: multiset<Task>)
    requires x <= i
    ensures (i - x + (x + a)) + d == i + d + a
  {
  }

  /** Moving `b` from one multiset to another while `a` leaves takes just `a` out of their sum. */
  lemma MoveBag(i: multiset<Task>, d: multiset<Task>, a: multiset<Task>, b: multiset<Task>, c: multiset<Task>,
                e: multiset<Task>)
    requires a + b + c <= i && e <= d
    ensures (i - (a + b + c) + c) + (d - e + (e + b)) == i + d - a
  {
  }

  lemma DequesAside(q: Queues, ds: seq<seq<Task>>)
    ensures InjectorBag(q.(deques := ds)) == InjectorBag(q)
  {
  }

  /** An injector without its first parts. */
  lemma InjectorBagTake(q: Queues, p: Priority, gone: multiset<Task>, rest: seq<Task>)
    requires multiset(Injector(q, p)) == gone + multiset(rest)
    ensures gone + multiset(rest) <= InjectorBag(q)
    ensures InjectorBag(WithInjector(q, p, rest)) == InjectorBag(q) - (gone + multiset(rest)) + multiset(rest)
  {
    InjectorBagUpdate(q, p, rest);
  }

  lemma BatchInjectors(q: Queues, p: Priority, w: nat, extra: nat)
    requires w < |q.deques| && Injector(q, p) != []
    ensures var xs := Injector(q, p);
            var n := Extra(xs, extra);
            var all := multiset{xs[0]} + multiset(xs[1..1 + n]) + multiset(xs[1 + n..]);
            && all <= InjectorBag(q)
            && InjectorBag(TakeBatch(q, p, w, extra)) == InjectorBag(q) - all + multiset(xs[1 + n..])
  {
    var xs := Injector(q, p);
    var n := Extra(xs, extra);
    SplitBag(xs, n);
    InjectorBagTake(q, p, multiset{xs[0]} + multiset(xs[1..1 + n]), xs[1 + n..]);
    var q1, ds := WithInjector(q, p, xs[1 + n..]), q.deques[w := q.deques[w] + xs[1..1 + n]];
    assert TakeBatch(q, p, w, extra) == q1.(deques := ds);
    assert InjectorBag(q1.(deques := ds)) == InjectorBag(q1) by { DequesAside(q1, ds); }
  }

  lemma BatchDeques(q: Queues, p: Priority, w: nat, extra: nat)
    requires w < |q.deques| && Injector(q, p) != []
    ensures var moved := Injector(q, p)[1..1 + Extra(Injector(q, p), extra)];
            var d, e := DequeBag(q.deques), multiset(q.deques[w]);
            e <= d && DequeBag(TakeBatch(q, p, w, extra).deques) == d - e + (e + multiset(moved))
  {
    var moved := Injector(q, p)[1..1 + Extra(Injector(q, p), extra)];
    var ds' := TakeBatch(q, p, w, extra).deques;
    assert ds' == q.deques[w := q.deques[w] + moved];
    DequeBagAppend(q.deques, w, moved);
  }

  lemma DequeBagAppend(ds: seq<seq<Task>>, w: nat, moved: seq<Task>)
    requires w < |ds|
    ensures var d, e := DequeBag(ds), multiset(ds[w]);
            e <= d && DequeBag(ds[w := ds[w] + moved]) == d - e + (e + multiset(moved))
  {
    DequeBagUpdate(ds, w, ds[w] + moved);
    var b := multiset(ds[w] + moved);
    assert b == multiset(ds[w]) + multiset(moved) by { ConcatBag(ds[w], moved); }
  }

  /** A batch takes exactly the head out of the system: the rest only changes place. */
  lemma TakeBatchBag(q: Queues, p: Priority, w: nat, extra: nat)
    requires w < |q.deques| && Injector(q, p) != []
    ensures Injector(q, p)[0] in Bag(q)
    ensures Bag(TakeBatch(q, p, w, extra)) == Bag(q) - multiset{Injector(q, p)[0]}
  {
    var xs := Injector(q, p);
    var n := Extra(xs, extra);
    BatchInjectors(q, p, w, extra);
    BatchDeques(q, p, w, extra);
    MoveBag(InjectorBag(q), DequeBag(q.deques), multiset{xs[0]}, multiset(xs[1..1 + n]), multiset(xs[1 + n..]),
            multiset(q.deques[w]));
    HeadQueued(InjectorBag(q), xs[0], multiset(xs[1..1 + n]), multiset(xs[1 + n..]));
  }

  lemma HeadQueued(i: multiset<Task>, x: Task, b: multiset<Task>, c: multiset<Task>)
    requires multiset{x} + b + c <= i
    ensures x in i
  {
    assert x in multiset{x} + b + c;
  }

  lemma TakeBatchSize(q: Queues, p: Priority, w: nat, extra: nat)
    requires w < |q.deques| && Injector(q, p) != []
    ensures Size(TakeBatch(q, p, w, extra)) == Size(q) - 1
  {
    var xs := Injector(q, p);
    var n := Extra(xs, extra);
    SumUpdate(q.deques, w, q.deques[w] + xs[1..1 + n], Length);
  }

  lemma TakeFrontBag(q: Queues, w: nat)
    requires w < |q.deques| && q.deques[w] != []
    ensures q.deques[w][0] in Bag(q)
    ensures Bag(TakeFront(q, w)) == Bag(q) - multiset{q.deques[w][0]}
    ensures Size(TakeFront(q, w)) == Size(q) - 1
  {
    var xs := q.deques[w];
    assert multiset(xs) == multiset{xs[0]} + multiset(xs[1..]) by { assert xs == [xs[0]] + xs[1..]; }
    DequeBagUpdate(q.deques, w, xs[1..]);
    var i, d, a, b := InjectorBag(q), DequeBag(q.deques), multiset{xs[0]}, multiset(xs[1..]);
    MoveBag(d, i, a, multiset{}, b, multiset{});
    assert InjectorBag(TakeFront(q, w)) == i;
    assert xs[0] in d;
    SumUpdate(q.deques, w, xs[1..], Length);
  }

  /** Being queued means sitting in an injector or in some deque. */
  lemma {:induction false} InDequeBag(ds: seq<seq<Task>>, t: Task)
    ensures t in DequeBag(ds) <==> exists w :: 0 <= w < |ds| && t in ds[w]
  {
    if ds != [] {
      var es := ds[..|ds| - 1];
      InDequeBag(es, t);
      if t in DequeBag(es) {
        var w :| 0 <= w < |es| && t in es[w];
        assert t in ds[w];
      }
      if w :| 0 <= w < |ds| && t in ds[w] {
        if w < |es| { assert t in es[w]; }
      }
    }
  }

  lemma InBag(q: Queues, t: Task)
    ensures t in Bag(q) <==>
            t in q.high || t in q.normal || t in q.low || exists w :: 0 <= w < |q.deques| && t in q.deques[w]
  {
    InDequeBag(q.deques, t);
  }

  lemma EmptyQueues(q: Queues)
    requires Size(q) == 0
    ensures q.high == [] && q.normal == [] && q.low == []
    ensures forall w :: 0 <= w < |q.deques| ==> q.deques[w] == []
  {
    SumNonNegative(q.deques, Length);
    forall w | 0 <= w < |q.deques|
      ensures q.deques[w] == []
    {
      assert Length(q.deques[w]) == 0;
    }
  }
}
