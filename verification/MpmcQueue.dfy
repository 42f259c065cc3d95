/**
  Many producers and many consumers on one closing bounded queue.

  A step is one critical section, one atomic counter update, or one notification
  made outside the lock; any thread may take the next step.  A thread that waits
  gives up the lock and sleeps, is woken by a notification or spuriously, and
  re-evaluates its predicate when it gets the lock again, so a thread that never
  slept can overtake it.

  `late` says where `push` and `pop` call notify_one: inside their critical
  section (false) or after releasing the lock (true).
 */
module MpmcQueue {
  import opened Items
  import opened Runs
  import opened Sums
  import opened Waiting

  datatype ProducerPc =
    | PReady       // about to lock the queue, or to count itself as done
    | PAsleep      // waiting on cv_full
    | PWoken       // woken, has not got the lock back yet
    | PNotify      // pushed, still owes cv_empty one notification
    | PReturned    // push has returned, `produced` not incremented yet
    | PClosing     // the last producer, about to set `closed`
    | PWakeEmpty   // closed, owes cv_empty a notify_all
    | PWakeFull    // owes cv_full a notify_all
    | PDone

  datatype ConsumerPc = CReady | CAsleep | CWoken | CNotify | CReturned | CDone

  datatype State = State(
    cap: nat, late: bool, items: seq<seq<int>>,
    q: seq<Item>, closed: bool,
    prod: seq<ProducerPc>, next: seq<nat>, producersDone: nat, produced: nat,
    cons: seq<ConsumerPc>, consumed: nat,
    pushed: seq<Item>, popped: seq<Item>, refused: seq<Item>)

  datatype Action =
    | Push(p: nat, wake: nat)
    | NotifyEmpty(p: nat, wake: nat)
    | CountProduced(p: nat)
    | CountDone(p: nat)
    | Close(p: nat)
    | NotifyAllEmpty(p: nat)
    | NotifyAllFull(p: nat)
    | Pop(c: nat, wake: nat)
    | NotifyFull(c: nat, wake: nat)
    | CountConsumed(c: nat)
    | SpuriousProducer(p: nat)
    | SpuriousConsumer(c: nat)
  {
    predicate Spurious() { SpuriousProducer? || SpuriousConsumer? }
  }

  // ---------- the steps ----------

  predicate Shape(s: State) {
    && |s.next| == |s.prod| == |s.items|
    && forall p :: 0 <= p < |s.next| ==> s.next[p] <= |s.items[p]|
  }

  predicate Enabled(s: State, a: Action) {
    && Shape(s)
    && match a
       case Push(p, w) =>
         && p < |s.prod| && (s.prod[p] == PReady || s.prod[p] == PWoken)
         && s.next[p] < |s.items[p]| && CanWake(s.cons, CAsleep, w)
       case NotifyEmpty(p, w) => p < |s.prod| && s.prod[p] == PNotify && CanWake(s.cons, CAsleep, w)
       case CountProduced(p) => p < |s.prod| && s.prod[p] == PReturned
       case CountDone(p) => p < |s.prod| && s.prod[p] == PReady && s.next[p] == |s.items[p]|
       case Close(p) => p < |s.prod| && s.prod[p] == PClosing
       case NotifyAllEmpty(p) => p < |s.prod| && s.prod[p] == PWakeEmpty
       case NotifyAllFull(p) => p < |s.prod| && s.prod[p] == PWakeFull
       case Pop(c, w) =>
         && c < |s.cons| && (s.cons[c] == CReady || s.cons[c] == CWoken)
         && CanWake(s.prod, PAsleep, w)
       case NotifyFull(c, w) => c < |s.cons| && s.cons[c] == CNotify && CanWake(s.prod, PAsleep, w)
       case CountConsumed(c) => c < |s.cons| && s.cons[c] == CReturned
       case SpuriousProducer(p) => p < |s.prod| && s.prod[p] == PAsleep
       case SpuriousConsumer(c) => c < |s.cons| && s.cons[c] == CAsleep
  }

  /** The critical section of push, from having the lock to releasing it. */
  function ApplyPush(s: State, p: nat, wake: nat): State
    requires Enabled(s, Push(p, wake))
  {
    var item := Item(p, s.items[p][s.next[p]]);
    if !s.closed && |s.q| >= s.cap then
      s.(prod := s.prod[p := PAsleep])
    else if s.closed then
      s.(prod := s.prod[p := PReturned], next := s.next[p := s.next[p] + 1], refused := s.refused + [item])
    else
      s.(q := s.q + [item], pushed := s.pushed + [item], next := s.next[p := s.next[p] + 1],
         prod := s.prod[p := if s.late then PNotify else PReturned],
         cons := if s.late then s.cons else WakeOne(s.cons, CAsleep, CWoken, wake))
  }

  /** The critical section of pop. */
  function ApplyPop(s: State, c: nat, wake: nat): State
    requires Enabled(s, Pop(c, wake))
  {
    if !s.closed && s.q == [] then
      s.(cons := s.cons[c := CAsleep])
    else if s.q == [] then
      s.(cons := s.cons[c := CDone])
    else
      s.(q := s.q[1..], popped := s.popped + [s.q[0]],
         cons := s.cons[c := if s.late then CNotify else CReturned],
         prod := if s.late then s.prod else WakeOne(s.prod, PAsleep, PWoken, wake))
  }

  function Apply(s: State, a: Action): State
    requires Enabled(s, a)
  {
    match a
    case Push(p, w) => ApplyPush(s, p, w)
    case NotifyEmpty(p, w) => s.(prod := s.prod[p := PReturned], cons := WakeOne(s.cons, CAsleep, CWoken, w))
    case CountProduced(p) => s.(prod := s.prod[p := PReady], produced := s.produced + 1)
    case CountDone(p) =>
      s.(producersDone := s.producersDone + 1,
         prod := s.prod[p := if s.producersDone + 1 == |s.prod| then PClosing else PDone])
    case Close(p) => s.(closed := true, prod := s.prod[p := PWakeEmpty])
    case NotifyAllEmpty(p) => s.(prod := s.prod[p := PWakeFull], cons := WakeAll(s.cons, CAsleep, CWoken))
    case NotifyAllFull(p) => s.(prod := WakeAll(s.prod[p := PDone], PAsleep, PWoken))
    case Pop(c, w) => ApplyPop(s, c, w)
    case NotifyFull(c, w) => s.(cons := s.cons[c := CReturned], prod := WakeOne(s.prod, PAsleep, PWoken, w))
    case CountConsumed(c) => s.(cons := s.cons[c := CReady], consumed := s.consumed + 1)
    case SpuriousProducer(p) => s.(prod := s.prod[p := PWoken])
    case SpuriousConsumer(c) => s.(cons := s.cons[c := CWoken])
  }

  ghost predicate Next(s: State, a: Action, t: State) {
    Enabled(s, a) && t == Apply(s, a)
  }

  /** The steps other than spurious wakeups. */
  ghost predicate Proper(s: State, a: Action, t: State) {
    Next(s, a, t) && !a.Spurious()
  }

  ghost predicate Init(s: State) {
    && Shape(s)
    && s.q == s.pushed == s.popped == s.refused == [] && !s.closed
    && s.producersDone == s.produced == s.consumed == 0
    && (forall p :: 0 <= p < |s.prod| ==> s.prod[p] == PReady && s.next[p] == 0)
    && (forall c :: 0 <= c < |s.cons| ==> s.cons[c] == CReady)
  }

  ghost predicate Finished(s: State) {
    && (forall p :: 0 <= p < |s.prod| ==> s.prod[p] == PDone)
    && (forall c :: 0 <= c < |s.cons| ==> s.cons[c] == CDone)
  }

  // ---------- the invariant ----------

  /** 1 for a producer that has counted itself as done. */
  function Past(pc: ProducerPc): nat {
    if pc.PClosing? || pc.PWakeEmpty? || pc.PWakeFull? || pc.PDone? then 1 else 0
  }

  /** The number of items all producers want to push. */
  function Wanted(s: State): nat { Sum(Identity, Lengths(s.items)) }

  ghost predicate Delivery(s: State)
    requires Shape(s)
  {
    && s.pushed == s.popped + s.q && |s.q| <= s.cap && s.refused == []
    && (forall p :: 0 <= p < |s.prod| ==> OfProducer(s.pushed, p) == s.items[p][..s.next[p]])
    && |s.pushed| == Sum(Identity, s.next)
    && (s.cap == 0 ==> s.pushed == []) && (s.cons == [] ==> s.popped == [])
  }

  /** How many producers (consumers) are at a program counter. */
  ghost function P(s: State, pc: ProducerPc): nat { Count(s.prod, pc) }

  ghost function C(s: State, pc: ConsumerPc): nat { Count(s.cons, pc) }

  /** While anyone sleeps, the threads woken or about to be woken can use every item and every free slot. */
  ghost predicate NoLostWakeup(s: State) {
    && (!s.closed && C(s, CAsleep) > 0 ==> |s.q| <= C(s, CWoken) + P(s, PNotify))
    && (!s.closed && P(s, PAsleep) > 0 ==> s.cap - |s.q| <= P(s, PWoken) + C(s, CNotify))
    && (s.closed && C(s, CAsleep) > 0 ==> P(s, PWakeEmpty) > 0)
  }

  ghost predicate Closing(s: State)
    requires Shape(s)
  {
    && s.producersDone == Sum(Past, s.prod)
    && (s.closed ==> s.producersDone == |s.prod| > 0)
    && (forall p :: 0 <= p < |s.prod| ==>
          && (s.prod[p].PClosing? ==> !s.closed && s.producersDone == |s.prod|)
          && (s.prod[p].PWakeEmpty? || s.prod[p].PWakeFull? ==> s.closed)
          && (Past(s.prod[p]) == 1 ==> s.next[p] == |s.items[p]|)
          && (s.prod[p].PAsleep? || s.prod[p].PWoken? ==> s.next[p] < |s.items[p]|))
    && P(s, PClosing) <= 1
    && (s.producersDone == |s.prod| > 0 ==> s.closed || P(s, PClosing) > 0)
  }

  /** A consumer ends on a closed and empty queue, which then stays empty. */
  ghost predicate Drained(s: State) {
    C(s, CDone) > 0 ==> s.closed && s.q == []
  }

  ghost predicate Counters(s: State) {
    && s.produced + P(s, PNotify) + P(s, PReturned) == |s.pushed|
    && s.consumed + C(s, CNotify) + C(s, CReturned) == |s.popped|
  }

  ghost predicate CountsHold(s: State) {
    NoLostWakeup(s) && Drained(s) && Counters(s)
  }

  ghost predicate Inv(s: State) {
    Shape(s) && Delivery(s) && Closing(s) && CountsHold(s)
  }

  lemma InitInv(s: State)
    requires Init(s)
    ensures Inv(s)
  {
    SumZero(Past, s.prod);
    SumZero(Identity, s.next);
    CountMember(s.prod, PClosing);
    CountMember(s.prod, PNotify);
    CountMember(s.prod, PReturned);
    CountMember(s.prod, PAsleep);
    CountMember(s.cons, CAsleep);
    CountMember(s.cons, CNotify);
    CountMember(s.cons, CReturned);
    CountMember(s.cons, CDone);
    assert forall p :: 0 <= p < |s.prod| ==> s.items[p][..0] == [];
  }

  /** Once the queue is closed every producer is past its last push. */
  lemma ClosedMeansAllPast(s: State)
    requires Inv(s) && (s.closed || s.producersDone == |s.prod|)
    ensures forall p :: 0 <= p < |s.prod| ==> Past(s.prod[p]) == 1
  {
    SumFull(Past, s.prod);
  }

  lemma DeliveryPush(s: State, p: nat, w: nat, t: State)
    requires Next(s, Push(p, w), t) && Delivery(s) && !s.closed
    ensures Shape(t) && Delivery(t)
  {
    if |s.q| < s.cap {
      var item := Item(p, s.items[p][s.next[p]]);
      forall r | 0 <= r < |t.prod|
        ensures OfProducer(t.pushed, r) == t.items[r][..t.next[r]]
      {
        OfProducerAppend(s.pushed, item, r);
      }
      SumUpdate(Identity, s.next, p, s.next[p] + 1);
    }
  }

  lemma DeliveryPop(s: State, c: nat, w: nat, t: State)
    requires Next(s, Pop(c, w), t) && Delivery(s)
    ensures Shape(t) && Delivery(t)
  {
  }

  lemma DeliveryOther(s: State, a: Action, t: State)
    requires Next(s, a, t) && Delivery(s) && !a.Push? && !a.Pop?
    ensures Shape(t) && Delivery(t)
  {
    assert t.q == s.q && t.next == s.next && t.pushed == s.pushed && t.popped == s.popped;
  }

  lemma DeliveryStep(s: State, a: Action, t: State)
    requires Inv(s) && Next(s, a, t)
    ensures Shape(t) && Delivery(t)
  {
    if a.Pop? {
      DeliveryPop(s, a.c, a.wake, t);
    } else if !a.Push? {
      DeliveryOther(s, a, t);
    } else if s.closed {
      ClosedMeansAllPast(s);
      assert false;
    } else {
      DeliveryPush(s, a.p, a.wake, t);
    }
  }

  lemma CountsFull(s: State, p: nat, w: nat, t: State)
    requires CountsHold(s) && Next(s, Push(p, w), t) && !s.closed && |s.q| >= s.cap
    ensures CountsHold(t)
  {
    Move(s.prod, p, PAsleep);
  }

  lemma CountsPushed(s: State, p: nat, w: nat, t: State)
    requires CountsHold(s) && Next(s, Push(p, w), t) && !s.closed && |s.q| < s.cap
    ensures CountsHold(t)
  {
    if s.late {
      Move(s.prod, p, PNotify);
    } else {
      Move(s.prod, p, PReturned);
      WakeOneCount(s.cons, CAsleep, CWoken, w);
    }
  }

  lemma CountsPush(s: State, p: nat, w: nat, t: State)
    requires Inv(s) && Next(s, Push(p, w), t)
    ensures CountsHold(t)
  {
    if s.closed {
      ClosedMeansAllPast(s);
      assert false;
    } else if |s.q| >= s.cap {
      CountsFull(s, p, w, t);
    } else {
      CountsPushed(s, p, w, t);
    }
  }

  lemma CountsEmpty(s: State, c: nat, w: nat, t: State)
    requires CountsHold(s) && Next(s, Pop(c, w), t) && s.q == []
    ensures CountsHold(t)
  {
    Move(s.cons, c, if s.closed then CDone else CAsleep);
  }

  lemma CountsPopped(s: State, c: nat, w: nat, t: State)
    requires CountsHold(s) && Next(s, Pop(c, w), t) && s.q != []
    ensures CountsHold(t)
  {
    if s.late {
      Move(s.cons, c, CNotify);
    } else {
      Move(s.cons, c, CReturned);
      WakeOneCount(s.prod, PAsleep, PWoken, w);
    }
  }

  lemma CountsPop(s: State, c: nat, w: nat, t: State)
    requires Inv(s) && Next(s, Pop(c, w), t)
    ensures CountsHold(t)
  {
    if s.q == [] {
      CountsEmpty(s, c, w, t);
    } else {
      CountsPopped(s, c, w, t);
    }
  }

  lemma CountsNotifyEmpty(s: State, p: nat, w: nat, t: State)
    requires Inv(s) && Next(s, NotifyEmpty(p, w), t)
    ensures CountsHold(t)
  {
    Move(s.prod, p, PReturned);
    WakeOneCount(s.cons, CAsleep, CWoken, w);
  }

  lemma CountsNotifyFull(s: State, c: nat, w: nat, t: State)
    requires Inv(s) && Next(s, NotifyFull(c, w), t)
    ensures CountsHold(t)
  {
    Move(s.cons, c, CReturned);
    WakeOneCount(s.prod, PAsleep, PWoken, w);
  }

  lemma CountsNotifyAll(s: State, a: Action, t: State)
    requires (a.NotifyAllEmpty? || a.NotifyAllFull?) && Inv(s) && Next(s, a, t)
    ensures CountsHold(t)
  {
    if a.NotifyAllEmpty? {
      Move(s.prod, a.p, PWakeFull);
      WakeAllCount(s.cons, CAsleep, CWoken);
    } else {
      Move(s.prod, a.p, PDone);
      WakeAllCount(s.prod[a.p := PDone], PAsleep, PWoken);
    }
  }

  lemma CountsClose(s: State, p: nat, t: State)
    requires Inv(s) && Next(s, Close(p), t)
    ensures CountsHold(t)
  {
    Move(s.prod, p, PWakeEmpty);
    assert P(t, PWakeEmpty) == P(s, PWakeEmpty) + 1;
  }

  lemma CountsProducer(s: State, a: Action, t: State)
    requires (a.CountProduced? || a.CountDone?) && Inv(s) && Next(s, a, t)
    ensures CountsHold(t)
  {
    if s.closed {
      ClosedMeansAllPast(s);
      assert false;
    } else {
      Move(s.prod, a.p, t.prod[a.p]);
    }
  }

  lemma CountsOther(s: State, a: Action, t: State)
    requires (a.CountConsumed? || a.Spurious()) && Inv(s) && Next(s, a, t)
    ensures CountsHold(t)
  {
    if a.SpuriousProducer? {
      Move(s.prod, a.p, PWoken);
    } else {
      Move(s.cons, a.c, t.cons[a.c]);
    }
  }

  /** Waking producers, one or all, moves none of them past its last push. */
  lemma PastAfterWake(prod: seq<ProducerPc>, w: nat)
    ensures Sum(Past, WakeOne(prod, PAsleep, PWoken, w)) == Sum(Past, prod)
    ensures Sum(Past, WakeAll(prod, PAsleep, PWoken)) == Sum(Past, prod)
  {
    if w < |prod| && prod[w] == PAsleep {
      SumUpdate(Past, prod, w, PWoken);
    }
    var all := WakeAll(prod, PAsleep, PWoken);
    SumGrowth(Past, prod, all, 0);
    SumGrowth(Past, all, prod, 0);
  }

  lemma ClosingPushed(s: State, p: nat, pc: ProducerPc, t: State)
    requires Shape(s) && Closing(s) && s.producersDone < |s.prod| && p < |s.prod|
    requires (s.prod[p] == PReady || s.prod[p] == PWoken) && s.next[p] < |s.items[p]|
    requires pc == PAsleep || pc == PNotify || pc == PReturned
    requires t.prod == s.prod[p := pc] && t.items == s.items
    requires t.closed == s.closed && t.producersDone == s.producersDone
    requires if pc == PAsleep then t.next == s.next else t.next == s.next[p := s.next[p] + 1]
    ensures Shape(t) && Closing(t)
  {
    SumUpdate(Past, s.prod, p, pc);
    Move(s.prod, p, pc);
    CountMember(s.prod, PClosing);
  }

  lemma ClosingPush(s: State, p: nat, w: nat, t: State)
    requires Inv(s) && Next(s, Push(p, w), t)
    ensures Shape(t) && Closing(t)
  {
    if s.producersDone == |s.prod| {
      ClosedMeansAllPast(s);
      assert false;
    } else {
      SumFull(Past, s.prod);
      ClosingPushed(s, p, t.prod[p], t);
    }
  }

  lemma ClosingCountDone(s: State, p: nat, t: State)
    requires Inv(s) && Next(s, CountDone(p), t)
    ensures Shape(t) && Closing(t)
  {
    SumUpdate(Past, s.prod, p, t.prod[p]);
    Move(s.prod, p, t.prod[p]);
    SumFull(Past, s.prod);
    assert Past(s.prod[p]) == 0;
    assert s.producersDone < |s.prod| && !s.closed;
    if P(s, PClosing) > 0 {
      CountMember(s.prod, PClosing);
      assert false;
    }
  }

  lemma ClosingClose(s: State, p: nat, t: State)
    requires Inv(s) && Next(s, Close(p), t)
    ensures Shape(t) && Closing(t)
  {
    SumUpdate(Past, s.prod, p, PWakeEmpty);
    Move(s.prod, p, PWakeEmpty);
    assert P(t, PClosing) + 1 == P(s, PClosing);
    CountMember(t.prod, PClosing);
  }

  /** The producer steps that move no producer past its last push. */
  lemma ClosingProducer(s: State, a: Action, t: State)
    requires a.CountProduced? || a.NotifyEmpty? || a.SpuriousProducer?
    requires Next(s, a, t) && Closing(s)
    ensures Shape(t) && Closing(t)
  {
    SumUpdate(Past, s.prod, a.p, t.prod[a.p]);
    Move(s.prod, a.p, t.prod[a.p]);
  }

  lemma ClosingNotifyAll(s: State, a: Action, t: State)
    requires (a.NotifyAllEmpty? || a.NotifyAllFull?) && Next(s, a, t) && Closing(s)
    ensures Shape(t) && Closing(t)
  {
    if a.NotifyAllEmpty? {
      SumUpdate(Past, s.prod, a.p, PWakeFull);
      Move(s.prod, a.p, PWakeFull);
    } else {
      SumUpdate(Past, s.prod, a.p, PDone);
      Move(s.prod, a.p, PDone);
      PastAfterWake(s.prod[a.p := PDone], a.p);
      WakeAllCount(s.prod[a.p := PDone], PAsleep, PWoken);
    }
  }

  lemma ClosingWake(s: State, w: nat, t: State)
    requires Shape(s) && Closing(s) && t == s.(prod := WakeOne(s.prod, PAsleep, PWoken, w))
    ensures Shape(t) && Closing(t)
  {
    PastAfterWake(s.prod, w);
    if t.prod != s.prod {
      Move(s.prod, w, PWoken);
    }
  }

  lemma ClosingFrame(s: State, t: State)
    requires Shape(s) && Closing(s) && t.prod == s.prod && t.next == s.next && t.items == s.items
    requires t.closed == s.closed && t.producersDone == s.producersDone
    ensures Shape(t) && Closing(t)
  {
  }

  lemma ClosingConsumer(s: State, a: Action, t: State)
    requires a.Pop? || a.NotifyFull? || a.CountConsumed? || a.SpuriousConsumer?
    requires Next(s, a, t) && Closing(s)
    ensures Shape(t) && Closing(t)
  {
    if t.prod == s.prod {
      ClosingFrame(s, t);
    } else {
      var u := s.(prod := WakeOne(s.prod, PAsleep, PWoken, a.wake));
      ClosingWake(s, a.wake, u);
      ClosingFrame(u, t);
    }
  }

  lemma StepInv(s: State, a: Action, t: State)
    requires Inv(s) && Next(s, a, t)
    ensures Inv(t)
  {
    DeliveryStep(s, a, t);
    match a
    case Push(p, w) => CountsPush(s, p, w, t); ClosingPush(s, p, w, t);
    case NotifyEmpty(p, w) => CountsNotifyEmpty(s, p, w, t); ClosingProducer(s, a, t);
    case CountProduced(p) => CountsProducer(s, a, t); ClosingProducer(s, a, t);
    case CountDone(p) => CountsProducer(s, a, t); ClosingCountDone(s, p, t);
    case Close(p) => CountsClose(s, p, t); ClosingClose(s, p, t);
    case NotifyAllEmpty(p) => CountsNotifyAll(s, a, t); ClosingNotifyAll(s, a, t);
    case NotifyAllFull(p) => CountsNotifyAll(s, a, t); ClosingNotifyAll(s, a, t);
    case Pop(c, w) => CountsPop(s, c, w, t); ClosingConsumer(s, a, t);
    case NotifyFull(c, w) => CountsNotifyFull(s, c, w, t); ClosingConsumer(s, a, t);
    case CountConsumed(c) => CountsOther(s, a, t); ClosingConsumer(s, a, t);
    case SpuriousProducer(p) => CountsOther(s, a, t); ClosingProducer(s, a, t);
    case SpuriousConsumer(c) => CountsOther(s, a, t); ClosingConsumer(s, a, t);
  }

  // ---------- termination ----------

  function ProducerWeightOf(k: nat, pc: ProducerPc): nat {
    match pc
      case PDone => 0
      case PWakeFull => k + 1
      case PWakeEmpty => 2 * k + 2
      case PClosing => 2 * k + 3
      case PAsleep => 2 * k + 4
      case PReady => 2 * k + 5
      case PWoken => 2 * k + 5
      case PReturned => 2 * k + 6
      case PNotify => 2 * k + 8
  }

  function ProducerWeight(k: nat): ProducerPc -> nat {
    pc => ProducerWeightOf(k, pc)
  }

  function ConsumerWeight(pc: ConsumerPc): nat {
    match pc
    case CDone => 0
    case CAsleep => 1
    case CReady => 2
    case CWoken => 2
    case CReturned => 3
    case CNotify => 5
  }

  function Owing(s: State): nat {
    if |s.pushed| <= Wanted(s) then Wanted(s) - |s.pushed| else 0
  }

  /** The weight of all threads. */
  function Weights(k: nat, prod: seq<ProducerPc>, cons: seq<ConsumerPc>): nat {
    Sum(ProducerWeight(k), prod) + Sum(ConsumerWeight, cons)
  }

  /** Pushes still to come, items still to be popped, and how far each thread is from its end. */
  function Measure(s: State): nat {
    8 * Owing(s) + 4 * |s.q|
    + Weights(|s.prod| + |s.cons|, s.prod, s.cons)
  }

  /** A spurious wakeup costs the thread one more check of its predicate. */
  function Credit(a: Action): nat { if a.Spurious() then 2 else 0 }

  lemma NextBound(s: State)
    requires Inv(s)
    ensures |s.pushed| <= Wanted(s)
    ensures (exists p :: 0 <= p < |s.prod| && s.next[p] < |s.items[p]|) ==> |s.pushed| < Wanted(s)
    ensures (forall p :: 0 <= p < |s.prod| ==> s.next[p] == |s.items[p]|) ==> |s.pushed| == Wanted(s)
  {
    var lens := Lengths(s.items);
    SumOrder(Identity, s.next, lens);
    if p :| 0 <= p < |s.prod| && s.next[p] < |s.items[p]| {
      assert Identity(s.next[p]) < Identity(lens[p]);
    } else {
      assert s.next == lens;
    }
  }

  lemma WakeAllWeight<T>(w: T -> nat, pcs: seq<T>, asleep: T, woken: T)
    requires w(woken) == w(asleep) + 1
    ensures Sum(w, WakeAll(pcs, asleep, woken)) <= Sum(w, pcs) + |pcs|
  {
    SumGrowth(w, pcs, WakeAll(pcs, asleep, woken), 1);
  }

  lemma WakeOneWeight<T>(w: T -> nat, pcs: seq<T>, asleep: T, woken: T, choice: nat)
    requires w(woken) == w(asleep) + 1
    ensures Sum(w, WakeOne(pcs, asleep, woken, choice)) <= Sum(w, pcs) + 1
  {
    if choice < |pcs| && pcs[choice] == asleep {
      SumUpdate(w, pcs, choice, woken);
    }
  }

  lemma PaidPush(s: State, p: nat, w: nat, t: State)
    requires Next(s, Push(p, w), t) && !s.closed && |s.pushed| < Wanted(s)
    ensures Measure(t) < Measure(s)
  {
    if |s.q| < s.cap {
      PutWeights(|s.prod| + |s.cons|, s.prod, s.cons, s.late, p, w);
      assert |t.prod| == |s.prod| && |t.cons| == |s.cons| && Owing(t) + 1 == Owing(s);
    } else {
      SumUpdate(ProducerWeight(|s.prod| + |s.cons|), s.prod, p, PAsleep);
    }
  }

  lemma TakeWeights(k: nat, prod: seq<ProducerPc>, cons: seq<ConsumerPc>, late: bool, c: nat, w: nat)
    requires c < |cons| && (cons[c] == CReady || cons[c] == CWoken)
    ensures var cons' := cons[c := if late then CNotify else CReturned];
            var prod' := if late then prod else WakeOne(prod, PAsleep, PWoken, w);
            Weights(k, prod', cons') <= Weights(k, prod, cons) + 3
  {
    SumUpdate(ConsumerWeight, cons, c, if late then CNotify else CReturned);
    WakeOneWeight(ProducerWeight(k), prod, PAsleep, PWoken, w);
  }

  lemma PutWeights(k: nat, prod: seq<ProducerPc>, cons: seq<ConsumerPc>, late: bool, p: nat, w: nat)
    requires p < |prod| && (prod[p] == PReady || prod[p] == PWoken)
    ensures var prod' := prod[p := if late then PNotify else PReturned];
            var cons' := if late then cons else WakeOne(cons, CAsleep, CWoken, w);
            Weights(k, prod', cons') <= Weights(k, prod, cons) + 3
  {
    SumUpdate(ProducerWeight(k), prod, p, if late then PNotify else PReturned);
    WakeOneWeight(ConsumerWeight, cons, CAsleep, CWoken, w);
  }

  lemma PaidTake(s: State, c: nat, w: nat, t: State)
    requires Next(s, Pop(c, w), t) && s.q != []
    ensures Measure(t) < Measure(s)
  {
    TakeWeights(|s.prod| + |s.cons|, s.prod, s.cons, s.late, c, w);
    assert |t.prod| == |s.prod| && |t.cons| == |s.cons| && Owing(t) == Owing(s);
  }

  lemma PaidPop(s: State, c: nat, w: nat, t: State)
    requires Next(s, Pop(c, w), t)
    ensures Measure(t) < Measure(s)
  {
    if s.q == [] {
      SumUpdate(ConsumerWeight, s.cons, c, t.cons[c]);
    } else {
      PaidTake(s, c, w, t);
    }
  }

  lemma PaidNotifyEmpty(s: State, p: nat, w: nat, t: State)
    requires Next(s, NotifyEmpty(p, w), t)
    ensures Measure(t) < Measure(s)
  {
    SumUpdate(ProducerWeight(|s.prod| + |s.cons|), s.prod, p, PReturned);
    WakeOneWeight(ConsumerWeight, s.cons, CAsleep, CWoken, w);
  }

  lemma PaidNotifyFull(s: State, c: nat, w: nat, t: State)
    requires Next(s, NotifyFull(c, w), t)
    ensures Measure(t) < Measure(s)
  {
    SumUpdate(ConsumerWeight, s.cons, c, CReturned);
    WakeOneWeight(ProducerWeight(|s.prod| + |s.cons|), s.prod, PAsleep, PWoken, w);
  }

  /** A step in which producer p just moves to a lighter program counter. */
  lemma PaidMove(s: State, p: nat, pc: ProducerPc, t: State)
    requires p < |s.prod| && t.prod == s.prod[p := pc] && t.cons == s.cons
    requires t.q == s.q && t.pushed == s.pushed && t.items == s.items
    ensures var k := |s.prod| + |s.cons|;
            Measure(t) + ProducerWeightOf(k, s.prod[p]) == Measure(s) + ProducerWeightOf(k, pc)
  {
    SumUpdate(ProducerWeight(|s.prod| + |s.cons|), s.prod, p, pc);
  }

  lemma PaidWakeConsumers(s: State, t: State)
    requires t == s.(cons := WakeAll(s.cons, CAsleep, CWoken))
    ensures Measure(t) <= Measure(s) + |s.cons|
  {
    WakeAllWeight(ConsumerWeight, s.cons, CAsleep, CWoken);
  }

  lemma PaidWakeProducers(s: State, t: State)
    requires t == s.(prod := WakeAll(s.prod, PAsleep, PWoken))
    ensures Measure(t) <= Measure(s) + |s.prod|
  {
    WakeAllWeight(ProducerWeight(|s.prod| + |s.cons|), s.prod, PAsleep, PWoken);
  }

  lemma PaidNotifyAll(s: State, a: Action, t: State)
    requires (a.NotifyAllEmpty? || a.NotifyAllFull?) && Next(s, a, t)
    ensures Measure(t) < Measure(s)
  {
    var pc := if a.NotifyAllEmpty? then PWakeFull else PDone;
    var u := s.(prod := s.prod[a.p := pc]);
    PaidMove(s, a.p, pc, u);
    if a.NotifyAllEmpty? {
      PaidWakeConsumers(u, t);
    } else {
      PaidWakeProducers(u, t);
    }
  }

  lemma PaidProducer(s: State, a: Action, t: State)
    requires a.CountProduced? || a.CountDone? || a.Close? || a.SpuriousProducer?
    requires Next(s, a, t)
    ensures Measure(t) + 1 <= Measure(s) + Credit(a)
  {
    PaidMove(s, a.p, t.prod[a.p], t);
  }

  lemma PaidConsumer(s: State, a: Action, t: State)
    requires a.CountConsumed? || a.SpuriousConsumer?
    requires Next(s, a, t)
    ensures Measure(t) + 1 <= Measure(s) + Credit(a)
  {
    SumUpdate(ConsumerWeight, s.cons, a.c, t.cons[a.c]);
  }

  lemma PaidStep(s: State, a: Action, t: State)
    requires Inv(s) && Next(s, a, t)
    ensures Measure(t) + 1 <= Measure(s) + Credit(a)
  {
    match a
    case Push(p, w) =>
      NextBound(s);
      if s.closed {
        ClosedMeansAllPast(s);
        assert false;
      } else {
        PaidPush(s, p, w, t);
      }
    case Pop(c, w) => PaidPop(s, c, w, t);
    case NotifyEmpty(p, w) => PaidNotifyEmpty(s, p, w, t);
    case NotifyFull(c, w) => PaidNotifyFull(s, c, w, t);
    case NotifyAllEmpty(p) => PaidNotifyAll(s, a, t);
    case NotifyAllFull(p) => PaidNotifyAll(s, a, t);
    case CountConsumed(c) => PaidConsumer(s, a, t);
    case SpuriousConsumer(c) => PaidConsumer(s, a, t);
    case _ => PaidProducer(s, a, t);
  }

  lemma MeasureAtStart(s: State)
    requires Init(s)
    ensures var np, nc := |s.prod|, |s.cons|;
            Measure(s) == 8 * Wanted(s) + (2 * (np + nc) + 5) * np + 2 * nc
  {
    var k := |s.prod| + |s.cons|;
    SumConstant(ProducerWeight(k), s.prod, 2 * k + 5);
    SumConstant(ConsumerWeight, s.cons, 2);
  }

  /** Every run is finite: its length is bounded by the work to do and the spurious wakeups it suffered. */
  lemma RunsAreFinite(s0: State, acts: seq<Action>, s: State)
    requires Init(s0) && Run(Next, s0, acts, s)
    ensures var np, nc := |s0.prod|, |s0.cons|;
            |acts| <= 8 * Wanted(s0) + (2 * (np + nc) + 5) * np + 2 * nc + Total(Credit, acts)
  {
    InitInv(s0);
    var measure := (x: State) => Measure(x) as int;
    forall x, a, y | Inv(x) && Next(x, a, y)
      ensures Inv(y) && measure(y) + 1 <= measure(x) + Credit(a)
    {
      StepInv(x, a, y);
      PaidStep(x, a, y);
    }
    RunLength(Next, Inv, measure, Credit, s0, acts, s);
    MeasureAtStart(s0);
  }

  // ---------- deadlock freedom ----------

  /** The configurations of the program that can always finish. */
  predicate Live(s: State) {
    if s.cons == [] then Wanted(s) <= s.cap
    else s.prod != [] && (s.cap > 0 || Wanted(s) == 0)
  }

  lemma AwakeProducerSteps(s: State, p: nat) returns (a: Action)
    requires Inv(s) && p < |s.prod| && s.prod[p] != PAsleep && s.prod[p] != PDone
    ensures Enabled(s, a) && !a.Spurious()
  {
    var w := SomeChoice(s.cons, CAsleep);
    a := match s.prod[p]
      case PReady => if s.next[p] < |s.items[p]| then Push(p, w) else CountDone(p)
      case PWoken => Push(p, w)
      case PNotify => NotifyEmpty(p, w)
      case PReturned => CountProduced(p)
      case PClosing => Close(p)
      case PWakeEmpty => NotifyAllEmpty(p)
      case PWakeFull => NotifyAllFull(p);
  }

  lemma AwakeConsumerSteps(s: State, c: nat) returns (a: Action)
    requires Inv(s) && c < |s.cons| && s.cons[c] != CAsleep && s.cons[c] != CDone
    ensures Enabled(s, a) && !a.Spurious()
  {
    var w := SomeChoice(s.prod, PAsleep);
    a := match s.cons[c]
      case CReady => Pop(c, w)
      case CWoken => Pop(c, w)
      case CNotify => NotifyFull(c, w)
      case CReturned => CountConsumed(c);
  }

  lemma CanMove(s: State, a: Action)
    requires Enabled(s, a) && !a.Spurious()
    ensures !AtRest(Proper, s)
  {
    assert Proper(s, a, Apply(s, a));
  }

  /** At rest every thread has ended or sleeps. */
  lemma RestMeansAsleep(s: State)
    requires Inv(s) && AtRest(Proper, s)
    ensures forall p :: 0 <= p < |s.prod| ==> s.prod[p] == PAsleep || s.prod[p] == PDone
    ensures forall c :: 0 <= c < |s.cons| ==> s.cons[c] == CAsleep || s.cons[c] == CDone
  {
    if p :| 0 <= p < |s.prod| && s.prod[p] != PAsleep && s.prod[p] != PDone {
      var a := AwakeProducerSteps(s, p);
      CanMove(s, a);
      assert false;
    }
    if c :| 0 <= c < |s.cons| && s.cons[c] != CAsleep && s.cons[c] != CDone {
      var a := AwakeConsumerSteps(s, c);
      CanMove(s, a);
      assert false;
    }
  }

  /** No state has every unfinished thread asleep. */
  lemma RestMeansFinished(s: State)
    requires Inv(s) && AtRest(Proper, s) && Live(s)
    ensures Finished(s)
  {
    RestMeansAsleep(s);
    CountMember(s.prod, PNotify);
    CountMember(s.prod, PWoken);
    CountMember(s.prod, PClosing);
    CountMember(s.prod, PWakeEmpty);
    CountMember(s.prod, PAsleep);
    CountMember(s.cons, CNotify);
    CountMember(s.cons, CWoken);
    CountMember(s.cons, CAsleep);
    CountMember(s.cons, CDone);
    NextBound(s);
    if s.closed {
      ClosedMeansAllPast(s);
    } else if PAsleep !in s.prod {
      SumConstant(Past, s.prod, 1);
    }
  }

  /** What never changes. */
  ghost predicate SameProgram(s0: State, s: State) {
    && s.cap == s0.cap && s.late == s0.late && s.items == s0.items
    && |s.prod| == |s0.prod| && |s.cons| == |s0.cons|
  }

  lemma SameProgramStep(s: State, a: Action, t: State)
    requires Next(s, a, t)
    ensures SameProgram(s, t)
  {
  }

  lemma Reachable(s0: State, acts: seq<Action>, s: State)
    requires Init(s0) && Run(Next, s0, acts, s)
    ensures Inv(s) && SameProgram(s0, s)
  {
    InitInv(s0);
    var inv := (x: State) => Inv(x) && SameProgram(s0, x);
    forall x, a, y | inv(x) && Next(x, a, y) ensures inv(y) {
      StepInv(x, a, y);
      SameProgramStep(x, a, y);
    }
    RunInvariant(Next, inv, s0, acts, s);
  }

  /** Some schedule without spurious wakeups takes the program to rest. */
  lemma SomeRunRests(s0: State) returns (acts: seq<Action>, s: State)
    requires Init(s0)
    ensures Run(Next, s0, acts, s) && AtRest(Proper, s)
  {
    InitInv(s0);
    forall x, a, y | Inv(x) && Proper(x, a, y) ensures Inv(y) && Measure(y) < Measure(x) {
      StepInv(x, a, y);
      PaidStep(x, a, y);
    }
    acts, s := RunToRest(Proper, Inv, Measure, s0);
    Weaken(Proper, Next, s0, acts, s);
  }

  lemma FinishedMeansLive(s: State)
    requires Inv(s) && Finished(s)
    ensures Live(s)
  {
    if s.cons != [] {
      assert s.cons[0] == CDone;
      CountMember(s.cons, CDone);
    }
    assert forall p :: 0 <= p < |s.prod| ==> Past(s.prod[p]) == 1;
    NextBound(s);
  }

  /**
    A run can stop short, every unfinished thread asleep, exactly in the
    configurations in which the work cannot be done: consumers that nobody will
    ever release, or items that have no room to pass through.
   */
  lemma DeadlockFreeExactlyWhenLive(s0: State)
    requires Init(s0)
    ensures Live(s0) <==>
      forall acts, s :: Run(Next, s0, acts, s) && AtRest(Proper, s) ==> Finished(s)
  {
    if Live(s0) {
      forall acts, s | Run(Next, s0, acts, s) && AtRest(Proper, s) ensures Finished(s) {
        Reachable(s0, acts, s);
        RestMeansFinished(s);
      }
    } else {
      var acts, s := SomeRunRests(s0);
      Reachable(s0, acts, s);
      assert Run(Next, s0, acts, s) && AtRest(Proper, s);
      if Finished(s) {
        FinishedMeansLive(s);
        assert false;
      }
    }
  }

  // ---------- delivery ----------

  /**
    At every moment the dequeued items are a prefix of the enqueued ones, each
    producer's items are enqueued in its own order, none is refused, and the queue
    stays within its capacity.
   */
  lemma FifoAlways(s0: State, acts: seq<Action>, s: State)
    requires Init(s0) && Run(Next, s0, acts, s)
    ensures s.popped <= s.pushed && s.q == s.pushed[|s.popped|..]
    ensures s.refused == [] && |s.q| <= s0.cap
    ensures forall p :: 0 <= p < |s0.items| ==> OfProducer(s.pushed, p) <= s0.items[p]
    ensures s.produced <= |s.pushed| && s.consumed <= |s.popped|
  {
    Reachable(s0, acts, s);
  }

  /**
    While the queue is open, if a consumer sleeps then every queued item has a
    consumer woken or a notification owed for it, and if a producer sleeps then so
    has every free slot; once it is closed, a sleeper is about to be woken.
   */
  lemma SleepersAlways(s0: State, acts: seq<Action>, s: State)
    requires Init(s0) && Run(Next, s0, acts, s)
    ensures !s.closed && CAsleep in s.cons ==>
              |s.q| <= Count(s.cons, CWoken) + Count(s.prod, PNotify)
    ensures !s.closed && PAsleep in s.prod ==>
              s0.cap - |s.q| <= Count(s.prod, PWoken) + Count(s.cons, CNotify)
    ensures s.closed ==> PAsleep !in s.prod && (CAsleep in s.cons ==> PWakeEmpty in s.prod)
  {
    Reachable(s0, acts, s);
    CountMember(s.cons, CAsleep);
    CountMember(s.prod, PAsleep);
    CountMember(s.prod, PWakeEmpty);
    if s.closed {
      ClosedMeansAllPast(s);
    }
  }

  /**
    Every schedule of a live program, if run until nothing more can happen,
    finishes all threads and delivers every item exactly once.
   */
  lemma EveryScheduleDelivers(s0: State, acts: seq<Action>, s: State)
    requires Init(s0) && Live(s0) && s0.cons != []
    requires Run(Next, s0, acts, s) && AtRest(Proper, s)
    ensures Finished(s) && s.popped == s.pushed && s.q == [] && s.refused == []
    ensures forall p :: 0 <= p < |s0.items| ==> OfProducer(s.popped, p) == s0.items[p]
    ensures s.produced == s.consumed == |s.popped| == Wanted(s0)
  {
    Reachable(s0, acts, s);
    RestMeansFinished(s);
    assert s.cons[0] == CDone;
    CountMember(s.cons, CDone);
    CountMember(s.cons, CNotify);
    CountMember(s.cons, CReturned);
    CountMember(s.prod, PNotify);
    CountMember(s.prod, PReturned);
    assert forall p :: 0 <= p < |s.prod| ==> Past(s.prod[p]) == 1;
    NextBound(s);
  }

  // ---------- what `late` changes ----------

  /** Notifications are owed only by threads that notify after unlocking. */
  ghost predicate NothingOwed(s: State) {
    PNotify !in s.prod && CNotify !in s.cons
  }

  lemma EarlyStep(s: State, a: Action, t: State)
    requires Next(s, a, t) && !s.late && NothingOwed(s)
    ensures !t.late && NothingOwed(t)
  {
  }

  lemma EarlyOwesNothing(s0: State, acts: seq<Action>, s: State)
    requires Init(s0) && !s0.late && Run(Next, s0, acts, s)
    ensures NothingOwed(s)
  {
    var inv := (x: State) => !x.late && NothingOwed(x);
    forall x, a, y | inv(x) && Next(x, a, y) ensures inv(y) { EarlyStep(x, a, y); }
    RunInvariant(Next, inv, s0, acts, s);
  }

  /** Consumer c sleeps with an item in the queue, the notification for it not given, and nothing of its own to do. */
  ghost predicate SleepsBesideItem(s: State, c: nat) {
    && c < |s.cons| && s.cons[c] == CAsleep && s.q != [] && CWoken !in s.cons && PNotify in s.prod
    && (forall w :: !Enabled(s, Pop(c, w)) && !Enabled(s, NotifyFull(c, w)))
    && !Enabled(s, CountConsumed(c))
  }

  /** The consumer finds the queue empty and sleeps; then a producer puts an item and unlocks. */
  lemma SleepThenPush(s0: State, p: nat, c: nat) returns (acts: seq<Action>, s: State)
    requires Init(s0) && s0.late && s0.cap > 0 && c < |s0.cons| && p < |s0.prod| && s0.items[p] != []
    ensures Run(Next, s0, acts, s) && SleepsBesideItem(s, c)
  {
    var m := Apply(s0, Pop(c, 0));
    s := Apply(m, Push(p, c));
    Single(Next, m, Push(p, c), s);
    acts := [Pop(c, 0)] + [Push(p, c)];
    Prepend(Next, s0, Pop(c, 0), m, [Push(p, c)], s);
    assert s.prod[p] == PNotify;
  }

  /**
    For every program with room, an item and a consumer: a consumer can be asleep beside a
    queued item with nobody woken exactly if the notifications come after the unlocking.
   */
  lemma LateOwesExactly(s0: State, p: nat, c: nat)
    requires Init(s0) && s0.cap > 0 && c < |s0.cons| && p < |s0.prod| && s0.items[p] != []
    ensures s0.late <==> exists acts, s, d :: Run(Next, s0, acts, s) && SleepsBesideItem(s, d)
  {
    if s0.late {
      var acts, s := SleepThenPush(s0, p, c);
      assert Run(Next, s0, acts, s) && SleepsBesideItem(s, c);
    } else {
      forall acts, s, d | Run(Next, s0, acts, s) ensures !SleepsBesideItem(s, d) {
        EarlyOwesNothing(s0, acts, s);
      }
    }
  }

  /** The scheduler may wake any sleeper, for a notification or for nothing. */
  lemma AnySleeperMayWake(s: State, p: nat, c: nat, d: nat)
    requires Shape(s) && p < |s.prod| && c < |s.cons| && d < |s.cons| && s.cons[c] == CAsleep
    ensures Enabled(s, SpuriousConsumer(c)) && (s.prod[p] == PAsleep ==> Enabled(s, SpuriousProducer(p)))
    ensures s.prod[p] == PNotify ==> Enabled(s, NotifyEmpty(p, c))
    ensures s.cons[d] == CNotify && s.prod[p] == PAsleep ==> Enabled(s, NotifyFull(d, p))
  {
  }

  // ---------- the program, in place ----------

  /**
    The program in the source's own form: the queue's fields, the counters and each
    thread's position are updated in place, one method a step.  Each method does
    what the code between two scheduling points does, keeps the invariant and
    takes exactly the step of the specification.
   */
  class Program {
    const cap: nat
    const late: bool
    const items: seq<seq<int>>
    var q: seq<Item>
    var closed: bool
    var prod: seq<ProducerPc>
    var next: seq<nat>
    var producersDone: nat
    var produced: nat
    var cons: seq<ConsumerPc>
    var consumed: nat
    ghost var pushed: seq<Item>
    ghost var popped: seq<Item>
    ghost var refused: seq<Item>

    ghost function Snapshot(): State
      reads this
    {
      State(cap, late, items, q, closed, prod, next, producersDone, produced, cons, consumed,
            pushed, popped, refused)
    }

    ghost predicate Valid()
      reads this
    {
      Inv(Snapshot())
    }

    constructor (cap: nat, late: bool, items: seq<seq<int>>, consumers: nat)
      ensures Init(Snapshot()) && Valid()
      ensures this.cap == cap && this.late == late && this.items == items && |cons| == consumers
    {
      this.cap, this.late, this.items := cap, late, items;
      q, closed := [], false;
      prod, next := seq(|items|, _ => PReady), seq(|items|, _ => 0);
      cons := seq(consumers, _ => CReady);
      producersDone, produced, consumed := 0, 0, 0;
      pushed, popped, refused := [], [], [];
      new;
      InitInv(Snapshot());
    }

    /** push: wait on cv_full, then enqueue; the result says what the caller sees. */
    method Push(p: nat, wake: nat) returns (blocked: bool, ok: bool)
      requires Valid() && Enabled(Snapshot(), Action.Push(p, wake))
      modifies `q, `prod, `next, `cons, `pushed, `refused
      ensures Valid() && Snapshot() == Apply(old(Snapshot()), Action.Push(p, wake))
      ensures blocked <==> |old(q)| == cap
      ensures ok <==> !blocked
      ensures ok ==> q == old(q) + [Item(p, items[p][old(next)[p]])]
      ensures blocked ==> prod == old(prod)[p := PAsleep] && q == old(q) && next == old(next) && cons == old(cons)
      ensures ok ==> next == old(next)[p := old(next)[p] + 1]
      ensures ok ==> pushed == old(pushed) + [Item(p, items[p][old(next)[p]])]
      ensures ok && late ==> cons == old(cons) && prod == old(prod)[p := PNotify]
      ensures ok && !late ==> prod == old(prod)[p := PReturned]
      ensures ok && !late ==> cons == if CAsleep in old(cons) then old(cons)[wake := CWoken] else old(cons)
      ensures refused == old(refused) && (blocked ==> pushed == old(pushed))
    {
      ghost var before := Snapshot();
      blocked, ok := !closed && |q| >= cap, false;
      if blocked {
        prod := prod[p := PAsleep];
      } else {
        var item := Item(p, items[p][next[p]]);
        next := next[p := next[p] + 1];
        if closed {
          prod := prod[p := PReturned];
          refused := refused + [item];
        } else {
          ok := true;
          q := q + [item];
          pushed := pushed + [item];
          if late {
            prod := prod[p := PNotify];
          } else {
            prod := prod[p := PReturned];
            cons := WakeOne(cons, CAsleep, CWoken, wake);
          }
        }
      }
      if before.closed {
        ClosedMeansAllPast(before);
      }
      StepInv(before, Action.Push(p, wake), Snapshot());
    }

    /** What pop does when there is an item. */
    method Dequeue(c: nat, wake: nat) returns (item: Item)
      requires Enabled(Snapshot(), Action.Pop(c, wake)) && q != []
      modifies `q, `popped, `cons, `prod
      ensures Snapshot() == ApplyPop(old(Snapshot()), c, wake) && old(q) == [item] + q
      ensures popped == old(popped) + [item]
      ensures late ==> prod == old(prod) && cons == old(cons)[c := CNotify]
      ensures !late ==> cons == old(cons)[c := CReturned]
      ensures !late ==> prod == if PAsleep in old(prod) then old(prod)[wake := PWoken] else old(prod)
    {
      item := q[0];
      q := q[1..];
      popped := popped + [item];
      if late {
        cons := cons[c := CNotify];
      } else {
        cons := cons[c := CReturned];
        prod := WakeOne(prod, PAsleep, PWoken, wake);
      }
    }

    /** pop: wait on cv_empty, then dequeue; `gone` is the end of the stream. */
    method Pop(c: nat, wake: nat) returns (blocked: bool, gone: bool, item: Item)
      requires Valid() && Enabled(Snapshot(), Action.Pop(c, wake))
      modifies `q, `popped, `cons, `prod
      ensures Valid() && Snapshot() == Apply(old(Snapshot()), Action.Pop(c, wake))
      ensures blocked <==> old(q) == [] && !closed
      ensures gone <==> old(q) == [] && closed
      ensures old(q) != [] ==> old(q) == [item] + q
      ensures blocked ==> cons == old(cons)[c := CAsleep] && q == old(q) && prod == old(prod) && popped == old(popped)
      ensures gone ==> cons == old(cons)[c := CDone] && q == old(q) && prod == old(prod) && popped == old(popped)
      ensures old(q) != [] ==> popped == old(popped) + [item]
      ensures old(q) != [] && late ==> prod == old(prod) && cons == old(cons)[c := CNotify]
      ensures old(q) != [] && !late ==> cons == old(cons)[c := CReturned]
      ensures old(q) != [] && !late ==>
        prod == if PAsleep in old(prod) then old(prod)[wake := PWoken] else old(prod)
    {
      ghost var before := Snapshot();
      blocked, gone, item := !closed && q == [], closed && q == [], Item(0, 0);
      if blocked {
        cons := cons[c := CAsleep];
      } else if gone {
        cons := cons[c := CDone];
      } else {
        item := Dequeue(c, wake);
      }
      StepInv(before, Action.Pop(c, wake), Snapshot());
    }

    /** producers_done.fetch_add(1) + 1 == NP decides who closes. */
    method CountDone(p: nat) returns (last: bool)
      requires Valid() && Enabled(Snapshot(), Action.CountDone(p))
      modifies `prod, `producersDone
      ensures Valid() && Snapshot() == Apply(old(Snapshot()), Action.CountDone(p))
      ensures last <==> forall r :: 0 <= r < |prod| && r != p ==> Past(prod[r]) == 1
      ensures producersDone == old(producersDone) + 1 && prod == old(prod)[p := if last then PClosing else PDone]
    {
      ghost var before := Snapshot();
      producersDone := producersDone + 1;
      last := producersDone == |prod|;
      prod := prod[p := if last then PClosing else PDone];
      StepInv(before, Action.CountDone(p), Snapshot());
      if last {
        SumFull(Past, prod);
      } else if forall r :: 0 <= r < |prod| && r != p ==> Past(prod[r]) == 1 {
        SumConstant(Past, prod, 1);
      }
    }

    /** close, up to releasing the lock. */
    method Close(p: nat)
      requires Valid() && Enabled(Snapshot(), Action.Close(p))
      modifies `closed, `prod
      ensures Valid() && Snapshot() == Apply(old(Snapshot()), Action.Close(p))
      ensures closed && prod == old(prod)[p := PWakeEmpty]
    {
      ghost var before := Snapshot();
      closed := true;
      prod := prod[p := PWakeEmpty];
      StepInv(before, Action.Close(p), Snapshot());
    }

    method NotifyAllEmpty(p: nat)
      requires Valid() && Enabled(Snapshot(), Action.NotifyAllEmpty(p))
      modifies `cons, `prod
      ensures Valid() && Snapshot() == Apply(old(Snapshot()), Action.NotifyAllEmpty(p))
      ensures CAsleep !in cons
      ensures prod == old(prod)[p := PWakeFull] && |cons| == |old(cons)|
      ensures forall c :: 0 <= c < |cons| ==> cons[c] == if old(cons)[c] == CAsleep then CWoken else old(cons)[c]
    {
      ghost var before := Snapshot();
      cons := WakeAll(cons, CAsleep, CWoken);
      prod := prod[p := PWakeFull];
      StepInv(before, Action.NotifyAllEmpty(p), Snapshot());
    }

    method NotifyAllFull(p: nat)
      requires Valid() && Enabled(Snapshot(), Action.NotifyAllFull(p))
      modifies `prod
      ensures Valid() && Snapshot() == Apply(old(Snapshot()), Action.NotifyAllFull(p))
      ensures PAsleep !in prod
      ensures |prod| == |old(prod)| && prod[p] == PDone
      ensures forall r :: 0 <= r < |prod| && r != p ==>
                prod[r] == if old(prod)[r] == PAsleep then PWoken else old(prod)[r]
    {
      ghost var before := Snapshot();
      prod := WakeAll(prod[p := PDone], PAsleep, PWoken);
      StepInv(before, Action.NotifyAllFull(p), Snapshot());
    }

    /** A notification given outside the lock, a counter, or a spurious wakeup. */
    method Step(a: Action)
      requires a.NotifyEmpty? || a.NotifyFull? || a.CountProduced? || a.CountConsumed? || a.Spurious()
      requires Enabled(Snapshot(), a)
      modifies `prod, `cons, `produced, `consumed
      ensures Snapshot() == Apply(old(Snapshot()), a)
      ensures a.NotifyEmpty? ==> prod == old(prod)[a.p := PReturned]
      ensures a.NotifyEmpty? || a.NotifyFull? ==> produced == old(produced) && consumed == old(consumed)
      ensures a.NotifyEmpty? ==> if CAsleep in old(cons) then cons == old(cons)[a.wake := CWoken] else cons == old(cons)
      ensures a.NotifyFull? ==> cons == old(cons)[a.c := CReturned]
      ensures a.NotifyFull? ==> if PAsleep in old(prod) then prod == old(prod)[a.wake := PWoken] else prod == old(prod)
      ensures a.CountProduced? ==> produced == old(produced) + 1 && consumed == old(consumed)
      ensures a.CountProduced? ==> prod == old(prod)[a.p := PReady] && cons == old(cons)
      ensures a.CountConsumed? ==> consumed == old(consumed) + 1 && produced == old(produced)
      ensures a.CountConsumed? ==> cons == old(cons)[a.c := CReady] && prod == old(prod)
      ensures a.Spurious() ==> produced == old(produced) && consumed == old(consumed)
      ensures a.SpuriousProducer? ==> prod == old(prod)[a.p := PWoken] && cons == old(cons)
      ensures a.SpuriousConsumer? ==> cons == old(cons)[a.c := CWoken] && prod == old(prod)
    {
      match a {
        case NotifyEmpty(p, w) =>
          cons := WakeOne(cons, CAsleep, CWoken, w);
          prod := prod[p := PReturned];
        case NotifyFull(c, w) =>
          prod := WakeOne(prod, PAsleep, PWoken, w);
          cons := cons[c := CReturned];
        case CountProduced(p) =>
          produced := produced + 1;
          prod := prod[p := PReady];
        case CountConsumed(c) =>
          consumed := consumed + 1;
          cons := cons[c := CReady];
        case SpuriousProducer(p) =>
          prod := prod[p := PWoken];
        case SpuriousConsumer(c) =>
          cons := cons[c := CWoken];
      }
    }

    /** The steps outside the queue: late notifications, counters, and spurious wakeups. */
    method Other(a: Action)
      requires a.NotifyEmpty? || a.NotifyFull? || a.CountProduced? || a.CountConsumed? || a.Spurious()
      requires Valid() && Enabled(Snapshot(), a)
      modifies `prod, `cons, `produced, `consumed
      ensures Valid() && Snapshot() == Apply(old(Snapshot()), a)
      ensures a.NotifyEmpty? ==> prod == old(prod)[a.p := PReturned]
      ensures a.NotifyEmpty? || a.NotifyFull? ==> produced == old(produced) && consumed == old(consumed)
      ensures a.NotifyEmpty? ==> if CAsleep in old(cons) then cons == old(cons)[a.wake := CWoken] else cons == old(cons)
      ensures a.NotifyFull? ==> cons == old(cons)[a.c := CReturned]
      ensures a.NotifyFull? ==> if PAsleep in old(prod) then prod == old(prod)[a.wake := PWoken] else prod == old(prod)
      ensures a.CountProduced? ==> produced == old(produced) + 1 && consumed == old(consumed)
      ensures a.CountProduced? ==> prod == old(prod)[a.p := PReady] && cons == old(cons)
      ensures a.CountConsumed? ==> consumed == old(consumed) + 1 && produced == old(produced)
      ensures a.CountConsumed? ==> cons == old(cons)[a.c := CReady] && prod == old(prod)
      ensures a.Spurious() ==> produced == old(produced) && consumed == old(consumed)
      ensures a.SpuriousProducer? ==> prod == old(prod)[a.p := PWoken] && cons == old(cons)
      ensures a.SpuriousConsumer? ==> cons == old(cons)[a.c := CWoken] && prod == old(prod)
    {
      ghost var before := Snapshot();
      Step(a);
      StepInv(before, a, Snapshot());
    }
  }
}
