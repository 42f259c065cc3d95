/**
  The bounded buffer in C: a circular array with two condition variables, shared by
  producers that put their items and consumers that each get a number of items.

  head is the next cell to write, tail the next to read, count the number of items.
  A step is one critical section; the signal is given inside it.  There is no close.
 */
module RingBuffer {
  import opened Items
  import opened Runs
  import opened Sums
  import opened Waiting

  datatype Pc = Ready | Asleep | Woken

  datatype State = State(
    cap: nat, items: seq<seq<int>>, wants: seq<nat>,
    buf: seq<int>, head: nat, tail: nat, count: nat,
    prod: seq<Pc>, next: seq<nat>, cons: seq<Pc>, taken: seq<nat>,
    put: seq<Item>, got: seq<int>)

  datatype Action =
    | Put(p: nat, wake: nat)
    | Get(c: nat, wake: nat)
    | SpuriousProducer(p: nat)
    | SpuriousConsumer(c: nat)
  {
    predicate Spurious() { SpuriousProducer? || SpuriousConsumer? }
  }

  // ---------- the ring ----------

  /** The i-th cell from `start`, with wraparound. */
  function Slot(start: nat, i: nat, cap: nat): (slot: nat)
    requires start < cap && i <= cap
    ensures slot < cap && slot == if start + i < cap then start + i else start + i - cap
  {
    SmallMod(start + i, cap);
    (start + i) % cap
  }

  lemma SmallMod(x: nat, cap: nat)
    requires 0 < cap && x < 2 * cap
    ensures x % cap == if x < cap then x else x - cap
  {
  }

  /** What is in the buffer, oldest first. */
  function Contents(buf: seq<int>, tail: nat, count: nat): (q: seq<int>)
    requires tail < |buf| && count <= |buf|
    ensures |q| == count
  {
    seq(count, i requires 0 <= i < count => buf[Slot(tail, i, |buf|)])
  }

  /** Writing at the head appends to the contents, and the head moves to the cell after them. */
  lemma PutAppends(buf: seq<int>, tail: nat, count: nat, v: int)
    requires tail < |buf| && count < |buf|
    ensures var head := Slot(tail, count, |buf|);
      && Contents(buf[head := v], tail, count + 1) == Contents(buf, tail, count) + [v]
      && Slot(head, 1, |buf|) == Slot(tail, count + 1, |buf|)
  {
    var head := Slot(tail, count, |buf|);
    forall i | 0 <= i < count ensures buf[head := v][Slot(tail, i, |buf|)] == buf[Slot(tail, i, |buf|)] {
    }
  }

  /** Reading at the tail takes the oldest item off, and the head stays the cell after the rest. */
  lemma GetTakesOldest(buf: seq<int>, tail: nat, count: nat)
    requires tail < |buf| && 0 < count <= |buf|
    ensures var tail' := Slot(tail, 1, |buf|);
      && Contents(buf, tail, count) == [buf[tail]] + Contents(buf, tail', count - 1)
      && Slot(tail, count, |buf|) == Slot(tail', count - 1, |buf|)
  {
    var tail' := Slot(tail, 1, |buf|);
    forall i | 0 < i < count ensures Slot(tail, i, |buf|) == Slot(tail', i - 1, |buf|) {
    }
    assert Contents(buf, tail, count)[1..] == Contents(buf, tail', count - 1);
  }

  // ---------- the steps ----------

  predicate Shape(s: State) {
    && 0 < s.cap == |s.buf| && s.head < s.cap && s.tail < s.cap && s.count <= s.cap
    && |s.next| == |s.prod| == |s.items| && |s.taken| == |s.cons| == |s.wants|
    && (forall p :: 0 <= p < |s.next| ==> s.next[p] <= |s.items[p]|)
    && (forall c :: 0 <= c < |s.taken| ==> s.taken[c] <= s.wants[c])
  }

  predicate Enabled(s: State, a: Action) {
    && Shape(s)
    && match a
       case Put(p, w) => p < |s.prod| && s.prod[p] != Asleep && s.next[p] < |s.items[p]| && CanWake(s.cons, Asleep, w)
       case Get(c, w) => c < |s.cons| && s.cons[c] != Asleep && s.taken[c] < s.wants[c] && CanWake(s.prod, Asleep, w)
       case SpuriousProducer(p) => p < |s.prod| && s.prod[p] == Asleep
       case SpuriousConsumer(c) => c < |s.cons| && s.cons[c] == Asleep
  }

  function ApplyPut(s: State, p: nat, wake: nat): State
    requires Enabled(s, Put(p, wake))
  {
    if s.count == s.cap then s.(prod := s.prod[p := Asleep])
    else
      var v := s.items[p][s.next[p]];
      s.(buf := s.buf[s.head := v], head := (s.head + 1) % s.cap, count := s.count + 1,
         prod := s.prod[p := Ready], next := s.next[p := s.next[p] + 1],
         cons := WakeOne(s.cons, Asleep, Woken, wake), put := s.put + [Item(p, v)])
  }

  function ApplyGet(s: State, c: nat, wake: nat): State
    requires Enabled(s, Get(c, wake))
  {
    if s.count == 0 then s.(cons := s.cons[c := Asleep])
    else
      s.(tail := (s.tail + 1) % s.cap, count := s.count - 1,
         cons := s.cons[c := Ready], taken := s.taken[c := s.taken[c] + 1],
         prod := WakeOne(s.prod, Asleep, Woken, wake), got := s.got + [s.buf[s.tail]])
  }

  function Apply(s: State, a: Action): State
    requires Enabled(s, a)
  {
    match a
    case Put(p, w) => ApplyPut(s, p, w)
    case Get(c, w) => ApplyGet(s, c, w)
    case SpuriousProducer(p) => s.(prod := s.prod[p := Woken])
    case SpuriousConsumer(c) => s.(cons := s.cons[c := Woken])
  }

  ghost predicate Next(s: State, a: Action, t: State) {
    Enabled(s, a) && t == Apply(s, a)
  }

  /** The steps other than spurious wakeups. */
  ghost predicate Proper(s: State, a: Action, t: State) {
    Next(s, a, t) && !a.Spurious()
  }

  ghost predicate Init(s: State) {
    && Shape(s) && s.head == s.tail == s.count == 0 && s.put == [] && s.got == []
    && (forall p :: 0 <= p < |s.prod| ==> s.prod[p] == Ready && s.next[p] == 0)
    && (forall c :: 0 <= c < |s.cons| ==> s.cons[c] == Ready && s.taken[c] == 0)
  }

  // ---------- the invariant ----------

  /** The buffer is a queue: everything put is either got or in the ring, in that order. */
  ghost predicate Fifo(s: State)
    requires Shape(s)
  {
    && s.head == Slot(s.tail, s.count, s.cap)
    && Values(s.put) == s.got + Contents(s.buf, s.tail, s.count)
  }

  ghost predicate Logs(s: State)
    requires Shape(s)
  {
    && (forall p :: 0 <= p < |s.prod| ==> OfProducer(s.put, p) == s.items[p][..s.next[p]])
    && |s.put| == Sum(Identity, s.next) && |s.got| == Sum(Identity, s.taken)
  }

  /** While anyone sleeps on a condition, the woken threads can use everything there is. */
  ghost predicate NoLostWakeup(s: State) {
    && (Count(s.cons, Asleep) > 0 ==> s.count <= Count(s.cons, Woken))
    && (Count(s.prod, Asleep) > 0 ==> s.cap - s.count <= Count(s.prod, Woken))
  }

  ghost predicate WaitersHaveWork(s: State)
    requires Shape(s)
  {
    && (forall p :: 0 <= p < |s.prod| && s.prod[p] != Ready ==> s.next[p] < |s.items[p]|)
    && (forall c :: 0 <= c < |s.cons| && s.cons[c] != Ready ==> s.taken[c] < s.wants[c])
  }

  ghost predicate Inv(s: State) {
    Shape(s) && Fifo(s) && Logs(s) && NoLostWakeup(s) && WaitersHaveWork(s)
  }

  ghost predicate SameProgram(s0: State, s: State) {
    s.cap == s0.cap && s.items == s0.items && s.wants == s0.wants
  }

  lemma InitInv(s: State)
    requires Init(s)
    ensures Inv(s)
  {
    SumZero(Identity, s.next);
    SumZero(Identity, s.taken);
    CountMember(s.prod, Asleep);
    CountMember(s.cons, Asleep);
    assert forall p :: 0 <= p < |s.prod| ==> s.items[p][..0] == [];
  }

  lemma StepShape(s: State, a: Action, t: State)
    requires Next(s, a, t)
    ensures Shape(t) && SameProgram(s, t)
  {
    SmallMod(s.head + 1, s.cap);
    SmallMod(s.tail + 1, s.cap);
  }

  lemma FifoPut(s: State, p: nat, w: nat, t: State)
    requires Next(s, Put(p, w), t) && Fifo(s) && Shape(t)
    ensures Fifo(t)
  {
    if s.count < s.cap {
      PutAppends(s.buf, s.tail, s.count, s.items[p][s.next[p]]);
      assert t.head == Slot(s.head, 1, s.cap);
      assert Values(t.put) == Values(s.put) + [s.items[p][s.next[p]]];
    }
  }

  lemma FifoGet(s: State, c: nat, w: nat, t: State)
    requires Next(s, Get(c, w), t) && Fifo(s) && Shape(t)
    ensures Fifo(t)
  {
    if s.count > 0 {
      GetTakesOldest(s.buf, s.tail, s.count);
      assert t.tail == Slot(s.tail, 1, s.cap);
    }
  }

  lemma FifoStep(s: State, a: Action, t: State)
    requires Next(s, a, t) && Fifo(s) && Shape(t)
    ensures Fifo(t)
  {
    match a
    case Put(p, w) => FifoPut(s, p, w, t);
    case Get(c, w) => FifoGet(s, c, w, t);
    case _ => assert t.buf == s.buf && t.put == s.put && t.got == s.got;
  }

  lemma LogsPut(s: State, p: nat, w: nat, t: State)
    requires Next(s, Put(p, w), t) && Logs(s) && Shape(t)
    ensures Logs(t)
  {
    if s.count < s.cap {
      assert t.put[..|s.put|] == s.put;
      SumUpdate(Identity, s.next, p, s.next[p] + 1);
    }
  }

  lemma LogsStep(s: State, a: Action, t: State)
    requires Next(s, a, t) && Logs(s) && Shape(t)
    ensures Logs(t)
  {
    if a.Put? {
      LogsPut(s, a.p, a.wake, t);
    } else if a.Get? && s.count > 0 {
      SumUpdate(Identity, s.taken, a.c, s.taken[a.c] + 1);
    }
  }

  lemma WakeupPut(s: State, p: nat, w: nat, t: State)
    requires Next(s, Put(p, w), t) && NoLostWakeup(s)
    ensures NoLostWakeup(t)
  {
    Move(s.prod, p, t.prod[p]);
    WakeOneCount(s.cons, Asleep, Woken, w);
  }

  lemma WakeupGet(s: State, c: nat, w: nat, t: State)
    requires Next(s, Get(c, w), t) && NoLostWakeup(s)
    ensures NoLostWakeup(t)
  {
    Move(s.cons, c, t.cons[c]);
    WakeOneCount(s.prod, Asleep, Woken, w);
  }

  lemma WakeupStep(s: State, a: Action, t: State)
    requires Next(s, a, t) && NoLostWakeup(s)
    ensures NoLostWakeup(t)
  {
    match a
    case Put(p, w) => WakeupPut(s, p, w, t);
    case Get(c, w) => WakeupGet(s, c, w, t);
    case SpuriousProducer(p) => Move(s.prod, p, Woken);
    case SpuriousConsumer(c) => Move(s.cons, c, Woken);
  }

  lemma WorkStep(s: State, a: Action, t: State)
    requires Next(s, a, t) && WaitersHaveWork(s) && Shape(t)
    ensures WaitersHaveWork(t)
  {
  }

  lemma StepInv(s: State, a: Action, t: State)
    requires Inv(s) && Next(s, a, t)
    ensures Inv(t) && SameProgram(s, t)
  {
    StepShape(s, a, t);
    FifoStep(s, a, t);
    LogsStep(s, a, t);
    WakeupStep(s, a, t);
    WorkStep(s, a, t);
  }

  lemma Reachable(s0: State, acts: seq<Action>, s: State)
    requires Init(s0) && Run(Next, s0, acts, s)
    ensures Inv(s) && SameProgram(s0, s)
  {
    InitInv(s0);
    var inv := (x: State) => Inv(x) && SameProgram(s0, x);
    forall x, a, y | inv(x) && Next(x, a, y) ensures inv(y) { StepInv(x, a, y); }
    RunInvariant(Next, inv, s0, acts, s);
  }

  // ---------- the main results ----------

  /**
    On every schedule head is the cell `count` places after tail, and the values got are,
    in the order of the gets, the first values put; the rest are the ring's contents.
   */
  lemma RingIsAQueue(s0: State, acts: seq<Action>, s: State)
    requires Init(s0) && Run(Next, s0, acts, s)
    ensures Shape(s) && s.cap == s0.cap && s.items == s0.items
    ensures s.head == (s.tail + s.count) % s.cap
    ensures Values(s.put) == s.got + Contents(s.buf, s.tail, s.count)
    ensures forall p :: 0 <= p < |s.prod| ==> OfProducer(s.put, p) == s.items[p][..s.next[p]]
  {
    Reachable(s0, acts, s);
  }

  function Queued(s: State): seq<int>
    requires Shape(s)
  {
    Contents(s.buf, s.tail, s.count)
  }

  /** Put and get are the two operations of a bounded queue, which block exactly when it is full or empty. */
  lemma PutEnqueues(s: State, p: nat, w: nat, t: State)
    requires Inv(s) && Next(s, Put(p, w), t)
    ensures Shape(t) && (t.prod[p] == Asleep <==> |Queued(s)| == s.cap)
    ensures Queued(t) == if t.prod[p] == Asleep then Queued(s) else Queued(s) + [s.items[p][s.next[p]]]
  {
    StepShape(s, Put(p, w), t);
    if s.count < s.cap {
      PutAppends(s.buf, s.tail, s.count, s.items[p][s.next[p]]);
    }
  }

  lemma GetDequeues(s: State, c: nat, w: nat, t: State)
    requires Inv(s) && Next(s, Get(c, w), t)
    ensures Shape(t) && (t.cons[c] == Asleep <==> Queued(s) == [])
    ensures t.cons[c] == Asleep ==> Queued(t) == Queued(s) && t.got == s.got
    ensures t.cons[c] != Asleep ==> Queued(s) == [s.buf[s.tail]] + Queued(t) && t.got == s.got + [s.buf[s.tail]]
  {
    StepShape(s, Get(c, w), t);
    if s.count > 0 {
      GetTakesOldest(s.buf, s.tail, s.count);
      assert t.tail == Slot(s.tail, 1, s.cap);
    }
  }

  /** One signal an item is enough: a sleeper's condition is false, or someone woken is on the way. */
  lemma SleepersAlways(s0: State, acts: seq<Action>, s: State)
    requires Init(s0) && Run(Next, s0, acts, s)
    ensures Asleep in s.cons ==> s.count <= Count(s.cons, Woken)
    ensures Asleep in s.prod ==> s.cap - s.count <= Count(s.prod, Woken)
  {
    Reachable(s0, acts, s);
    CountMember(s.cons, Asleep);
    CountMember(s.prod, Asleep);
  }

  /** How many items there are to put, and how many to get. */
  function Puts(s: State): nat { Sum(Identity, Lengths(s.items)) }

  function Gets(s: State): nat { Sum(Identity, s.wants) }

  function Min(a: nat, b: nat): nat { if a < b then a else b }

  lemma CanMove(s: State, a: Action)
    requires Enabled(s, a) && !a.Spurious()
    ensures !AtRest(Proper, s)
  {
    assert Proper(s, a, Apply(s, a));
  }

  lemma ProducersRest(s: State)
    requires Inv(s) && AtRest(Proper, s)
    ensures |s.put| == Puts(s) || (s.count == s.cap && |s.put| < Puts(s))
  {
    forall p | 0 <= p < |s.prod| ensures s.prod[p] == Asleep || s.next[p] == |s.items[p]| {
      if s.prod[p] != Asleep && s.next[p] < |s.items[p]| {
        var w := SomeChoice(s.cons, Asleep);
        CanMove(s, Put(p, w));
      }
    }
    CountMember(s.prod, Asleep);
    CountMember(s.prod, Woken);
    SumOrder(Identity, s.next, Lengths(s.items));
    if Asleep !in s.prod {
      assert s.next == Lengths(s.items);
    } else {
      var p :| 0 <= p < |s.prod| && s.prod[p] == Asleep;
      assert Identity(s.next[p]) < Identity(Lengths(s.items)[p]);
    }
  }

  lemma ConsumersRest(s: State)
    requires Inv(s) && AtRest(Proper, s)
    ensures |s.got| == Gets(s) || (s.count == 0 && |s.got| < Gets(s))
  {
    forall c | 0 <= c < |s.cons| ensures s.cons[c] == Asleep || s.taken[c] == s.wants[c] {
      if s.cons[c] != Asleep && s.taken[c] < s.wants[c] {
        var w := SomeChoice(s.prod, Asleep);
        CanMove(s, Get(c, w));
      }
    }
    CountMember(s.cons, Asleep);
    CountMember(s.cons, Woken);
    SumOrder(Identity, s.taken, s.wants);
    if Asleep !in s.cons {
      assert s.taken == s.wants;
    } else {
      var c :| 0 <= c < |s.cons| && s.cons[c] == Asleep;
      assert Identity(s.taken[c]) < Identity(s.wants[c]);
    }
  }

  /**
    Where a program ends is fixed, whatever the schedule: it gets as many items as there
    are both puts and gets for, and puts as many as are got or fit into the ring.
   */
  lemma RestCounts(s0: State, acts: seq<Action>, s: State)
    requires Init(s0) && Run(Next, s0, acts, s) && AtRest(Proper, s)
    ensures |s.got| == Min(Puts(s0), Gets(s0))
    ensures |s.put| == Min(Puts(s0), Gets(s0) + s0.cap)
  {
    Reachable(s0, acts, s);
    ProducersRest(s);
    ConsumersRest(s);
    assert |Values(s.put)| == |s.got| + s.count;
  }

  ghost predicate Finished(s: State) {
    && |s.next| == |s.items| && |s.taken| == |s.wants|
    && (forall p :: 0 <= p < |s.next| ==> s.next[p] == |s.items[p]|)
    && (forall c :: 0 <= c < |s.taken| ==> s.taken[c] == s.wants[c])
  }

  lemma FinishedCounts(s: State)
    requires Inv(s)
    ensures Finished(s) <==> |s.put| == Puts(s) && |s.got| == Gets(s)
  {
    SumOrder(Identity, s.next, Lengths(s.items));
    SumOrder(Identity, s.taken, s.wants);
    if Finished(s) {
      assert s.next == Lengths(s.items) && s.taken == s.wants;
    } else if p :| 0 <= p < |s.next| && s.next[p] < |s.items[p]| {
      assert Identity(s.next[p]) < Identity(Lengths(s.items)[p]);
    } else {
      var c :| 0 <= c < |s.taken| && s.taken[c] < s.wants[c];
      assert Identity(s.taken[c]) < Identity(s.wants[c]);
    }
  }

  // ---------- termination ----------

  function Weight(pc: Pc): nat { if pc == Asleep then 1 else 2 }

  function Measure(s: State): int {
    2 * (Puts(s) - Sum(Identity, s.next)) + 2 * (Gets(s) - Sum(Identity, s.taken))
    + Sum(Weight, s.prod) + Sum(Weight, s.cons)
  }

  function Credit(a: Action): nat { if a.Spurious() then 2 else 0 }

  lemma WakeOneWeight(pcs: seq<Pc>, w: nat)
    ensures Sum(Weight, WakeOne(pcs, Asleep, Woken, w)) <= Sum(Weight, pcs) + 1
  {
    if w < |pcs| && pcs[w] == Asleep {
      SumUpdate(Weight, pcs, w, Woken);
    }
  }

  lemma PaidPut(s: State, p: nat, w: nat, t: State)
    requires Next(s, Put(p, w), t)
    ensures Measure(t) + 1 <= Measure(s)
  {
    SumUpdate(Weight, s.prod, p, t.prod[p]);
    SumUpdate(Identity, s.next, p, s.next[p] + 1);
    WakeOneWeight(s.cons, w);
  }

  lemma PaidGet(s: State, c: nat, w: nat, t: State)
    requires Next(s, Get(c, w), t)
    ensures Measure(t) + 1 <= Measure(s)
  {
    SumUpdate(Weight, s.cons, c, t.cons[c]);
    SumUpdate(Identity, s.taken, c, s.taken[c] + 1);
    WakeOneWeight(s.prod, w);
  }

  lemma PaidStep(s: State, a: Action, t: State)
    requires Next(s, a, t)
    ensures Measure(t) + 1 <= Measure(s) + Credit(a)
  {
    match a
    case Put(p, w) => PaidPut(s, p, w, t);
    case Get(c, w) => PaidGet(s, c, w, t);
    case SpuriousProducer(p) => SumUpdate(Weight, s.prod, p, Woken);
    case SpuriousConsumer(c) => SumUpdate(Weight, s.cons, c, Woken);
  }

  lemma RunPays(s0: State, acts: seq<Action>, s: State)
    requires Run(Next, s0, acts, s)
    ensures |acts| + Measure(s) <= Measure(s0) + Total(Credit, acts)
  {
    var inv := (x: State) => true;
    forall x, a, y | Next(x, a, y) ensures Measure(y) + 1 <= Measure(x) + Credit(a) { PaidStep(x, a, y); }
    RunLength(Next, inv, Measure, Credit, s0, acts, s);
  }

  lemma MeasureBounds(s: State)
    requires Shape(s)
    ensures Measure(s) >= 0
    ensures Init(s) ==> Measure(s) == 2 * (Puts(s) + Gets(s)) + 2 * (|s.prod| + |s.cons|)
  {
    SumOrder(Identity, s.next, Lengths(s.items));
    SumOrder(Identity, s.taken, s.wants);
    if Init(s) {
      SumZero(Identity, s.next);
      SumZero(Identity, s.taken);
      SumConstant(Weight, s.prod, 2);
      SumConstant(Weight, s.cons, 2);
    }
  }

  /** Every run is finite: two steps a put, a get and a thread, and two more for a spurious wakeup. */
  lemma RunsAreFinite(s0: State, acts: seq<Action>, s: State)
    requires Init(s0) && Run(Next, s0, acts, s)
    ensures |acts| <= 2 * (Puts(s0) + Gets(s0)) + 2 * (|s0.prod| + |s0.cons|) + Total(Credit, acts)
  {
    RunPays(s0, acts, s);
    MeasureBounds(s0);
    Reachable(s0, acts, s);
    MeasureBounds(s);
  }

  lemma SomeRunRests(s0: State) returns (acts: seq<Action>, s: State)
    requires Init(s0)
    ensures Run(Proper, s0, acts, s) && Run(Next, s0, acts, s) && AtRest(Proper, s)
  {
    InitInv(s0);
    var measure := (x: State) => if Measure(x) >= 0 then Measure(x) as nat else 0;
    forall x, a, y | Inv(x) && Proper(x, a, y) ensures Inv(y) && measure(y) < measure(x) {
      StepInv(x, a, y);
      PaidStep(x, a, y);
      MeasureBounds(y);
    }
    acts, s := RunToRest(Proper, Inv, measure, s0);
    Weaken(Proper, Next, s0, acts, s);
  }

  /**
    No schedule leaves a thread waiting exactly if the consumers ask for no more than the
    producers put and leave no more than the ring holds.
   */
  lemma EveryThreadReturnsExactly(s0: State)
    requires Init(s0)
    ensures Gets(s0) <= Puts(s0) <= Gets(s0) + s0.cap <==>
      forall acts, s :: Run(Next, s0, acts, s) && AtRest(Proper, s) ==> Finished(s)
  {
    forall acts, s | Run(Next, s0, acts, s) && AtRest(Proper, s)
      ensures Finished(s) <==> Gets(s0) <= Puts(s0) <= Gets(s0) + s0.cap
    {
      Reachable(s0, acts, s);
      RestCounts(s0, acts, s);
      FinishedCounts(s);
    }
    var acts, s := SomeRunRests(s0);
    assert Run(Next, s0, acts, s) && AtRest(Proper, s);
  }

  // ---------- what the scheduler may do ----------

  /** Any sleeper may be the one that a signal wakes, and may wake for nothing. */
  lemma AnySleeperMayWake(s: State, p: nat, c: nat)
    requires Shape(s) && p < |s.prod| && c < |s.cons|
    ensures s.prod[p] == Asleep ==> Enabled(s, SpuriousProducer(p))
    ensures s.cons[c] == Asleep ==> Enabled(s, SpuriousConsumer(c))
    ensures s.cons[c] == Asleep && s.prod[p] != Asleep && s.next[p] < |s.items[p]| ==> Enabled(s, Put(p, c))
    ensures s.prod[p] == Asleep && s.cons[c] != Asleep && s.taken[c] < s.wants[c] ==> Enabled(s, Get(c, p))
  {
  }

  // ---------- the buffer, in place ----------

  /** The cell after i, round the end. */
  predicate Follows(i: nat, j: nat, cap: nat) { j == if i + 1 == cap then 0 else i + 1 }

  /**
    What q_put by producer p does: on a full ring it goes to sleep.  Otherwise the item is in
    the cell at head and in no other, head moves on, and one sleeping consumer is woken.
   */
  ghost predicate HasPut(p: nat, wake: nat, s: State, t: State)
    requires Enabled(s, Put(p, wake))
  {
    if s.count == s.cap then
      && t.buf == s.buf && t.head == s.head && t.count == s.count && t.next == s.next && t.put == s.put
      && t.prod == s.prod[p := Asleep] && t.cons == s.cons
    else
      var v := s.items[p][s.next[p]];
      && t.buf == s.buf[s.head := v] && Follows(s.head, t.head, s.cap) && t.count == s.count + 1
      && t.prod == s.prod[p := Ready] && t.next == s.next[p := s.next[p] + 1] && t.put == s.put + [Item(p, v)]
      && t.cons == if Asleep in s.cons then s.cons[wake := Woken] else s.cons
  }

  lemma PutEffect(s: State, p: nat, wake: nat)
    requires Enabled(s, Put(p, wake))
    ensures HasPut(p, wake, s, Apply(s, Put(p, wake)))
  {
    SmallMod(s.head + 1, s.cap);
  }

  /** What q_get by consumer c does: on an empty ring it goes to sleep, otherwise it takes the item at tail. */
  ghost predicate HasGot(c: nat, wake: nat, s: State, t: State)
    requires Enabled(s, Get(c, wake))
  {
    if s.count == 0 then
      && t.tail == s.tail && t.count == s.count && t.taken == s.taken && t.got == s.got
      && t.cons == s.cons[c := Asleep] && t.prod == s.prod
    else
      && Follows(s.tail, t.tail, s.cap) && t.count == s.count - 1 && t.got == s.got + [s.buf[s.tail]]
      && t.cons == s.cons[c := Ready] && t.taken == s.taken[c := s.taken[c] + 1]
      && t.prod == if Asleep in s.prod then s.prod[wake := Woken] else s.prod
  }

  lemma GetEffect(s: State, c: nat, wake: nat)
    requires Enabled(s, Get(c, wake))
    ensures HasGot(c, wake, s, Apply(s, Get(c, wake)))
  {
    SmallMod(s.tail + 1, s.cap);
  }

  /** queue_t with its array, and each thread's position, updated in place by one method a critical section. */
  class Queue {
    const items: seq<seq<int>>
    const wants: seq<nat>
    const buf: array<int>
    var head: nat
    var tail: nat
    var count: nat
    var prod: seq<Pc>
    var next: seq<nat>
    var cons: seq<Pc>
    var taken: seq<nat>
    ghost var put: seq<Item>
    ghost var got: seq<int>

    ghost function Snapshot(): State
      reads this, buf
    {
      State(buf.Length, items, wants, buf[..], head, tail, count, prod, next, cons, taken, put, got)
    }

    ghost predicate Valid()
      reads this, buf
    {
      Inv(Snapshot())
    }

    constructor (cap: nat, items: seq<seq<int>>, wants: seq<nat>)
      requires cap > 0
      ensures Init(Snapshot()) && Valid() && fresh(buf)
      ensures buf.Length == cap && this.items == items && this.wants == wants
    {
      this.items, this.wants := items, wants;
      buf := new int[cap];
      head, tail, count := 0, 0, 0;
      prod, next := seq(|items|, _ => Ready), seq(|items|, _ => 0);
      cons, taken := seq(|wants|, _ => Ready), seq(|wants|, _ => 0);
      put, got := [], [];
      new;
      InitInv(Snapshot());
    }

    /** What q_put does to the array and the fields. */
    method Write(p: nat, wake: nat) returns (blocked: bool)
      requires Enabled(Snapshot(), Action.Put(p, wake))
      modifies `head, `count, `prod, `next, `cons, `put, buf
      ensures Snapshot() == Apply(old(Snapshot()), Action.Put(p, wake)) && blocked == (old(count) == buf.Length)
    {
      ghost var cells, at := buf[..], head;
      blocked := count == buf.Length;
      if blocked {
        prod := prod[p := Asleep];
      } else {
        var v := items[p][next[p]];
        buf[head] := v;
        head := (head + 1) % buf.Length;
        count := count + 1;
        cons := WakeOne(cons, Asleep, Woken, wake);
        prod, next := prod[p := Ready], next[p := next[p] + 1];
        put := put + [Item(p, v)];
        assert buf[..] == cells[at := v];
      }
    }

    /** The critical section of q_put: waits on a full ring, else writes one cell and signals. */
    method Put(p: nat, wake: nat) returns (blocked: bool)
      requires Valid() && Enabled(Snapshot(), Action.Put(p, wake))
      modifies `head, `count, `prod, `next, `cons, `put, buf
      ensures Valid() && Snapshot() == Apply(old(Snapshot()), Action.Put(p, wake))
      ensures blocked <==> |Queued(old(Snapshot()))| == buf.Length
      ensures Queued(Snapshot()) ==
        if blocked then Queued(old(Snapshot())) else Queued(old(Snapshot())) + [items[p][old(next)[p]]]
      ensures HasPut(p, wake, old(Snapshot()), Snapshot())
    {
      ghost var before := Snapshot();
      PutEffect(before, p, wake);
      blocked := Write(p, wake);
      StepInv(before, Action.Put(p, wake), Snapshot());
      PutEnqueues(before, p, wake, Snapshot());
    }

    /** What q_get does to the fields. */
    method Take(c: nat, wake: nat) returns (blocked: bool, v: int)
      requires Enabled(Snapshot(), Action.Get(c, wake))
      modifies `tail, `count, `prod, `cons, `taken, `got
      ensures Snapshot() == Apply(old(Snapshot()), Action.Get(c, wake)) && blocked == (old(count) == 0)
      ensures !blocked ==> v == buf[old(tail)]
    {
      blocked, v := count == 0, 0;
      if blocked {
        cons := cons[c := Asleep];
      } else {
        v := buf[tail];
        tail := (tail + 1) % buf.Length;
        count := count - 1;
        prod := WakeOne(prod, Asleep, Woken, wake);
        cons, taken := cons[c := Ready], taken[c := taken[c] + 1];
        got := got + [v];
      }
    }

    /** The critical section of q_get: waits on an empty ring, else takes the oldest item and signals. */
    method Get(c: nat, wake: nat) returns (blocked: bool, v: int)
      requires Valid() && Enabled(Snapshot(), Action.Get(c, wake))
      modifies `tail, `count, `prod, `cons, `taken, `got
      ensures Valid() && Snapshot() == Apply(old(Snapshot()), Action.Get(c, wake))
      ensures blocked <==> Queued(old(Snapshot())) == []
      ensures Queued(old(Snapshot())) == if blocked then Queued(Snapshot()) else [v] + Queued(Snapshot())
      ensures HasGot(c, wake, old(Snapshot()), Snapshot()) && (!blocked ==> v == buf[old(tail)])
    {
      ghost var before := Snapshot();
      GetEffect(before, c, wake);
      blocked, v := Take(c, wake);
      StepInv(before, Action.Get(c, wake), Snapshot());
      GetDequeues(before, c, wake, Snapshot());
    }

    method SpuriousWakeup(a: Action)
      requires Valid() && a.Spurious() && Enabled(Snapshot(), a)
      modifies `prod, `cons
      ensures Valid() && Snapshot() == Apply(old(Snapshot()), a)
      ensures a.SpuriousProducer? ==> prod == old(prod)[a.p := Woken] && cons == old(cons)
      ensures a.SpuriousConsumer? ==> cons == old(cons)[a.c := Woken] && prod == old(prod)
    {
      ghost var before := Snapshot();
      match a {
        case SpuriousProducer(p) => prod := prod[p := Woken];
        case SpuriousConsumer(c) => cons := cons[c := Woken];
      }
      StepInv(before, a, Snapshot());
    }
  }
}
