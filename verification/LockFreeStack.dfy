/**
  The compare-and-swap stacks: the Treiber stack, which leaks the nodes it pops,
  and the tagged stack, whose head is a (pointer, tag) pair, run on a heap in which
  popped nodes may be recycled.

  `modulus` is the number of tags: 2^64 for a machine word, 1 for a plain pointer.
  `recycle` says whether the node of a finished pop may be allocated again.

  A step is one load, one compare_exchange or one private action; between its load
  and its compare_exchange a thread works on a snapshot that any number of steps of
  the others can make stale.  compare_exchange_weak may fail for no reason.

  One step holds two writes: the link that a push stores into its node before it tries,
  and the try.  Until the try wins only its own thread may reach the node, except through
  a pop's snapshot from before the node was freed.  What such a pop reads there is never
  used within the window, where its own compare_exchange fails; outside it the two changes
  that it takes at least are the same wherever the write is put.
 */
module LockFreeStack {
  import opened Runs
  import opened Sums

  const NULL: nat := 0

  datatype Node = Node(value: int, next: nat)

  /** One thread's position; `seen` counts the head changes before its last load. */
  datatype Thread =
    | Idle
    | PushNew(node: nat, value: int)
    | PushTry(node: nat, value: int, ptr: nat, tag: nat, seen: nat)
    | PopRead(ptr: nat, tag: nat, seen: nat)
    | PopTry(ptr: nat, tag: nat, next: nat, seen: nat)
    | PopTake(node: nat, at: nat)  // won at log entry `at`, value not read yet

  /** What an operation did to the abstract stack at the moment it took effect. */
  datatype Op = Push(value: int) | Pop(value: int) | Empty

  /** What a caller asks for. */
  datatype Call = PushCall(value: int) | PopCall

  /** `log[i]` was done by thread who[i]; calls[t] lists what thread t has been asked for, in order. */
  datatype State = State(
    modulus: nat, recycle: bool,
    heap: map<nat, Node>, head: nat, tag: nat, threads: seq<Thread>,
    used: set<nat>, changes: nat, log: seq<Op>, returned: map<nat, int>,
    who: seq<nat>, calls: seq<seq<Call>>)

  datatype Action =
    | Alloc(t: nat, node: nat, value: int)
    | LoadForPush(t: nat)
    | CasPush(t: nat, fail: bool)
    | LoadForPop(t: nat)
    | ReadNext(t: nat)
    | CasPop(t: nat, fail: bool)
    | Take(t: nat)

  // ---------- the steps ----------

  predicate Enabled(s: State, a: Action) {
    && a.t < |s.threads| == |s.calls| && s.modulus > 0
    && var me := s.threads[a.t];
       match a
       case Alloc(t, node, v) => me.Idle? && node != NULL && node !in s.used
       case LoadForPush(t) => me.PushNew?
       case CasPush(t, fail) => me.PushTry? && me.node in s.heap
       case LoadForPop(t) => me.Idle?
       case ReadNext(t) => me.PopRead? && me.ptr in s.heap
       case CasPop(t, fail) => me.PopTry? && me.ptr in s.heap
       case Take(t) => me.PopTake? && me.node in s.heap
  }

  /** Whether the head is bit for bit the snapshot the thread holds. */
  predicate Matches(s: State, me: Thread)
    requires me.PushTry? || me.PopTry?
  {
    s.head == me.ptr && s.tag == me.tag
  }

  /** Unsigned increment: the last tag is followed by zero. */
  function NextTag(tag: nat, modulus: nat): nat {
    if tag + 1 == modulus then 0 else tag + 1
  }

  function SetHead(s: State, t: nat, head: nat, op: Op): State
    requires s.modulus > 0
  {
    s.(head := head, tag := NextTag(s.tag, s.modulus), changes := s.changes + 1,
       log := s.log + [op], who := s.who + [t])
  }

  function Ask(s: State, t: nat, call: Call): State
    requires t < |s.calls|
  {
    s.(calls := s.calls[t := s.calls[t] + [call]])
  }

  /** A pop that finds no head returns at once; otherwise it keeps the snapshot. */
  function LoadHead(s: State, t: nat): State
    requires t < |s.threads|
  {
    if s.head == NULL then s.(threads := s.threads[t := Idle], log := s.log + [Empty], who := s.who + [t])
    else s.(threads := s.threads[t := PopRead(s.head, s.tag, s.changes)])
  }

  function ApplyCasPush(s: State, t: nat, fail: bool): State
    requires Enabled(s, CasPush(t, fail))
  {
    var me := s.threads[t];
    var s1 := s.(heap := s.heap[me.node := s.heap[me.node].(next := me.ptr)]);
    if Matches(s, me) && !fail then
      SetHead(s1, t, me.node, Push(s.heap[me.node].value)).(threads := s.threads[t := Idle])
    else
      s1.(threads := s.threads[t := PushTry(me.node, me.value, s.head, s.tag, s.changes)])
  }

  function ApplyCasPop(s: State, t: nat, fail: bool): State
    requires Enabled(s, CasPop(t, fail))
  {
    var me := s.threads[t];
    if Matches(s, me) && !fail then
      SetHead(s, t, me.next, Pop(s.heap[me.ptr].value)).(threads := s.threads[t := PopTake(me.ptr, |s.log|)])
    else
      LoadHead(s, t)
  }

  function Apply(s: State, a: Action): State
    requires Enabled(s, a)
  {
    var me := s.threads[a.t];
    match a
    case Alloc(t, node, v) =>
      Ask(s, t, PushCall(v)).(heap := s.heap[node := Node(v, NULL)], used := s.used + {node},
                              threads := s.threads[t := PushNew(node, v)])
    case LoadForPush(t) =>
      s.(threads := s.threads[t := PushTry(me.node, me.value, s.head, s.tag, s.changes)])
    case CasPush(t, fail) => ApplyCasPush(s, t, fail)
    case LoadForPop(t) => LoadHead(Ask(s, t, PopCall), t)
    case ReadNext(t) =>
      s.(threads := s.threads[t := PopTry(me.ptr, me.tag, s.heap[me.ptr].next, me.seen)])
    case CasPop(t, fail) => ApplyCasPop(s, t, fail)
    case Take(t) =>
      s.(threads := s.threads[t := Idle], returned := s.returned[me.at := s.heap[me.node].value],
         used := if s.recycle then s.used - {me.node} else s.used)
  }

  ghost predicate Next(s: State, a: Action, t: State) {
    Enabled(s, a) && t == Apply(s, a)
  }

  /** With recycling, a pop may succeed only if fewer than `modulus` head changes passed since its load. */
  ghost predicate InWindow(s: State, a: Action)
    requires Enabled(s, a)
  {
    a.CasPop? && !a.fail && Matches(s, s.threads[a.t]) && s.recycle ==>
      s.changes < s.threads[a.t].seen + s.modulus
  }

  ghost predicate WindowedNext(s: State, a: Action, t: State) {
    Next(s, a, t) && InWindow(s, a)
  }

  ghost predicate Init(s: State) {
    && s.modulus > 0 && s.heap == map[] && s.head == NULL && s.tag == 0 && s.used == {}
    && (forall t :: 0 <= t < |s.threads| ==> s.threads[t] == Idle)
    && s.changes == 0 && s.log == [] && s.returned == map[]
    && s.who == [] && |s.calls| == |s.threads|
    && (forall t :: 0 <= t < |s.calls| ==> s.calls[t] == [])
  }

  // ---------- the abstract stack ----------

  datatype Contents = Legal(values: seq<int>) | Illegal

  /** Runs one operation of a sequential stack; Illegal if its answer is not the stack's. */
  function RunOp(c: Contents, op: Op): Contents {
    match (c, op)
    case (Legal(values), Push(v)) => Legal([v] + values)
    case (Legal(values), Pop(v)) => if values != [] && values[0] == v then Legal(values[1..]) else Illegal
    case (Legal(values), Empty) => if values == [] then c else Illegal
    case (Illegal, _) => Illegal
  }

  /** The contents of a sequential stack after a log of operations. */
  function Replay(log: seq<Op>): Contents {
    if log == [] then Legal([]) else RunOp(Replay(log[..|log| - 1]), log[|log| - 1])
  }

  lemma ReplayAppend(log: seq<Op>, op: Op)
    ensures Replay(log + [op]) == RunOp(Replay(log), op)
  {
    assert (log + [op])[..|log|] == log;
  }

  /** `nodes` is the linked list that starts at p; a list that ends is acyclic. */
  ghost predicate IsList(heap: map<nat, Node>, p: nat, nodes: seq<nat>)
    decreases |nodes|
  {
    if nodes == [] then p == NULL
    else p == nodes[0] && p != NULL && p in heap && IsList(heap, heap[p].next, nodes[1..])
  }

  ghost function Values(heap: map<nat, Node>, nodes: seq<nat>): seq<int> {
    if nodes == [] then []
    else [if nodes[0] in heap then heap[nodes[0]].value else 0] + Values(heap, nodes[1..])
  }

  ghost predicate Distinct(nodes: seq<nat>) {
    forall i, j :: 0 <= i < j < |nodes| ==> nodes[i] != nodes[j]
  }

  /** The list reachable from the head holds what the logged operations leave behind. */
  ghost predicate Refines(s: State, nodes: seq<nat>) {
    && IsList(s.heap, s.head, nodes) && Distinct(nodes)
    && Replay(s.log) == Legal(Values(s.heap, nodes))
    && (forall i: nat :: i in s.returned ==> i < |s.log| && s.log[i] == Pop(s.returned[i]))
  }

  lemma {:induction false} ListUnique(heap: map<nat, Node>, p: nat, left: seq<nat>, right: seq<nat>)
    requires IsList(heap, p, left) && IsList(heap, p, right)
    ensures left == right
    decreases |left|
  {
    if left != [] {
      ListUnique(heap, heap[p].next, left[1..], right[1..]);
      assert left == [p] + left[1..] && right == [p] + right[1..];
    }
  }

  /** Changes outside the list do not touch it. */
  lemma {:induction false} ListFrame(heap: map<nat, Node>, heap': map<nat, Node>, p: nat, nodes: seq<nat>)
    requires IsList(heap, p, nodes)
    requires forall n :: n in nodes ==> n in heap && n in heap' && heap'[n] == heap[n]
    ensures IsList(heap', p, nodes) && Values(heap', nodes) == Values(heap, nodes)
    decreases |nodes|
  {
    if nodes != [] {
      ListFrame(heap, heap', heap[p].next, nodes[1..]);
    }
  }

  lemma {:induction false} ListMembers(heap: map<nat, Node>, p: nat, nodes: seq<nat>)
    requires IsList(heap, p, nodes)
    ensures forall n :: n in nodes ==> n in heap && n != NULL
    decreases |nodes|
  {
    if nodes != [] {
      ListMembers(heap, heap[p].next, nodes[1..]);
      assert nodes == [p] + nodes[1..];
    }
  }

  // ---------- the invariant ----------

  /** The nodes only this thread may touch. */
  ghost function Owned(me: Thread): set<nat> {
    if me.PushNew? || me.PushTry? || me.PopTake? then {me.node} else {}
  }

  ghost predicate SnapshotOk(s: State, ptr: nat, tag: nat, seen: nat)
    requires s.modulus > 0
  {
    seen <= s.changes && tag == TagOf(seen, s.modulus) && (seen == s.changes ==> ptr == s.head)
  }

  /** No pushing thread still owns the node, so without recycling its link is final. */
  ghost predicate Published(s: State, ptr: nat) {
    && ptr in s.used
    && forall t :: 0 <= t < |s.threads| && (s.threads[t].PushNew? || s.threads[t].PushTry?) ==>
         s.threads[t].node != ptr
  }

  /** The node of a push under way is allocated and holds the value pushed. */
  ghost predicate Carries(s: State, node: nat, value: int) {
    node in s.used && node in s.heap && s.heap[node].value == value
  }

  ghost predicate ThreadOk(s: State, me: Thread)
    requires s.modulus > 0
  {
    match me
    case Idle => true
    case PushNew(node, value) => Carries(s, node, value)
    case PushTry(node, value, ptr, tag, seen) => Carries(s, node, value) && SnapshotOk(s, ptr, tag, seen)
    case PopRead(ptr, tag, seen) =>
      && ptr in s.heap && SnapshotOk(s, ptr, tag, seen) && (!s.recycle ==> Published(s, ptr))
    case PopTry(ptr, tag, next, seen) =>
      && ptr in s.heap && SnapshotOk(s, ptr, tag, seen) && (!s.recycle ==> Published(s, ptr))
      && (!s.recycle || seen == s.changes ==> next == s.heap[ptr].next)
    case PopTake(node, at) =>
      node in s.used && node in s.heap && at < |s.log| && s.log[at] == Pop(s.heap[node].value) && at !in s.returned
  }

  ghost predicate Machine(s: State) {
    && s.modulus > 0 && s.tag == TagOf(s.changes, s.modulus)
    && s.used <= s.heap.Keys && NULL !in s.heap
  }

  ghost predicate Threads(s: State)
    requires s.modulus > 0
  {
    forall t :: 0 <= t < |s.threads| ==> ThreadOk(s, s.threads[t])
  }

  /** A node in use is in the list or belongs to one thread, or waits to be freed by nobody. */
  ghost predicate Owners(s: State, nodes: seq<nat>) {
    && (forall n :: n in nodes ==> n in s.used)
    && (forall t, n :: 0 <= t < |s.threads| && n in nodes ==> n !in Owned(s.threads[t]))
    && (forall t, u :: 0 <= t < u < |s.threads| ==> Owned(s.threads[t]) !! Owned(s.threads[u]))
  }

  /** Every popped log entry is returned exactly once: already, or by one thread that is about to. */
  ghost predicate Takes(s: State) {
    && (forall t, u :: 0 <= t < u < |s.threads| && s.threads[t].PopTake? && s.threads[u].PopTake? ==>
          s.threads[t].at != s.threads[u].at)
    && (forall i :: 0 <= i < |s.log| && s.log[i].Pop? && i !in s.returned ==> Due(s, i))
  }

  ghost predicate Inv(s: State, nodes: seq<nat>) {
    Machine(s) && Refines(s, nodes) && Threads(s) && Owners(s, nodes) && Takes(s)
  }

  /** Some thread is about to return the value of log entry i. */
  ghost predicate Due(s: State, i: nat) {
    exists t :: 0 <= t < |s.threads| && s.threads[t].PopTake? && s.threads[t].at == i
  }


  lemma InitInv(s: State)
    requires Init(s)
    ensures Inv(s, [])
  {
  }

  /** The tag after some number of head changes. */
  function TagOf(changes: nat, modulus: nat): (tag: nat)
    requires modulus > 0
    ensures tag < modulus
  {
    if changes == 0 then 0 else NextTag(TagOf(changes - 1, modulus), modulus)
  }

  lemma {:induction false} TagAfter(changes: nat, more: nat, modulus: nat)
    requires 0 < modulus && more <= modulus
    ensures TagOf(changes + more, modulus)
      == var tag := TagOf(changes, modulus) + more; if tag < modulus then tag else tag - modulus
  {
    if more > 0 {
      TagAfter(changes, more - 1, modulus);
    }
  }

  /** Two counts less than a modulus apart are told apart by their tags. */
  lemma SameTagSameCount(now: nat, seen: nat, modulus: nat)
    requires seen <= now < seen + modulus && TagOf(now, modulus) == TagOf(seen, modulus)
    ensures now == seen
  {
    TagAfter(seen, now - seen, modulus);
  }

  /** A number of changes that brings the tag from zero back to zero brings any tag back. */
  lemma {:induction false} SameTagOff(seen: nat, more: nat, modulus: nat)
    requires modulus > 0 && TagOf(more, modulus) == 0
    ensures TagOf(seen + more, modulus) == TagOf(seen, modulus)
  {
    if seen > 0 {
      SameTagOff(seen - 1, more, modulus);
    }
  }

  /** What one thread's move leaves due, provided that it was not about to return a value. */
  lemma DueKept(s: State, s': State, t: nat)
    requires t < |s.threads| && !s.threads[t].PopTake?
    requires |s'.threads| == |s.threads|
    requires forall u :: 0 <= u < |s.threads| && u != t ==> s'.threads[u] == s.threads[u]
    ensures forall i :: Due(s, i) ==> Due(s', i)
  {
    forall i | Due(s, i) ensures Due(s', i) {
      var u :| 0 <= u < |s.threads| && s.threads[u].PopTake? && s.threads[u].at == i;
      assert s'.threads[u].PopTake? && s'.threads[u].at == i;
    }
  }

  lemma HeadInUse(s: State, nodes: seq<nat>)
    requires Inv(s, nodes)
    ensures if nodes == [] then s.head == NULL else s.head == nodes[0] && s.head in s.used
  {
  }

  lemma AllocThreads(s: State, a: Action, s': State)
    requires a.Alloc? && Machine(s) && Threads(s) && Next(s, a, s') && |s.threads| == |s'.threads|
    requires (s.head == NULL || s.head in s.used) && forall p :: Published(s, p) ==> Published(s', p)
    ensures Machine(s') && Threads(s')
  {
    forall u | 0 <= u < |s.threads| ensures ThreadOk(s', s'.threads[u]) {
      assert ThreadOk(s, s.threads[u]);
    }
  }

  lemma AllocPublished(s: State, a: Action, s': State)
    requires a.Alloc? && Next(s, a, s')
    ensures forall p :: Published(s, p) ==> Published(s', p)
  {
  }

  lemma AllocOwners(s: State, nodes: seq<nat>, a: Action, s': State)
    requires a.Alloc? && Machine(s) && Threads(s) && Owners(s, nodes) && Takes(s) && Next(s, a, s')
    ensures Owners(s', nodes) && Takes(s')
  {
    DueKept(s, s', a.t);
    forall u | 0 <= u < |s.threads| ensures Owned(s.threads[u]) <= s.used {
      assert ThreadOk(s, s.threads[u]);
    }
  }

  lemma StepAlloc(s: State, nodes: seq<nat>, a: Action, s': State)
    requires a.Alloc? && Inv(s, nodes) && Next(s, a, s')
    ensures Inv(s', nodes)
  {
    HeadInUse(s, nodes);
    AllocPublished(s, a, s');
    AllocThreads(s, a, s');
    ListMembers(s.heap, s.head, nodes);
    ListFrame(s.heap, s'.heap, s.head, nodes);
    AllocOwners(s, nodes, a, s');
  }

  lemma StepLoadForPush(s: State, nodes: seq<nat>, a: Action, s': State)
    requires a.LoadForPush? && Inv(s, nodes) && Next(s, a, s')
    ensures Inv(s', nodes)
  {
    DueKept(s, s', a.t);
    forall u | 0 <= u < |s.threads| ensures ThreadOk(s', s'.threads[u]) {
      assert ThreadOk(s, s.threads[u]);
    }
  }

  lemma StepReadNext(s: State, nodes: seq<nat>, a: Action, s': State)
    requires a.ReadNext? && Inv(s, nodes) && Next(s, a, s')
    ensures Inv(s', nodes)
  {
    DueKept(s, s', a.t);
    forall u | 0 <= u < |s.threads| ensures ThreadOk(s', s'.threads[u]) {
      assert ThreadOk(s, s.threads[u]);
    }
  }

  lemma TakeTakes(s: State, a: Action, s': State)
    requires a.Take? && Takes(s) && Next(s, a, s')
    ensures Takes(s')
  {
    forall i | 0 <= i < |s.log| && s.log[i].Pop? && i !in s'.returned ensures Due(s', i) {
      assert Due(s, i);
      var u :| 0 <= u < |s.threads| && s.threads[u].PopTake? && s.threads[u].at == i;
      assert s'.threads[u].PopTake? && s'.threads[u].at == i;
    }
  }

  lemma TakeThreads(s: State, nodes: seq<nat>, a: Action, s': State)
    requires a.Take? && Inv(s, nodes) && Next(s, a, s')
    ensures Machine(s') && Threads(s')
  {
    forall u | 0 <= u < |s.threads| ensures ThreadOk(s', s'.threads[u]) {
      assert ThreadOk(s, s.threads[u]);
    }
  }

  lemma StepTake(s: State, nodes: seq<nat>, a: Action, s': State)
    requires a.Take? && Inv(s, nodes) && Next(s, a, s')
    ensures Inv(s', nodes)
  {
    assert ThreadOk(s, s.threads[a.t]);
    TakeThreads(s, nodes, a, s');
    TakeTakes(s, a, s');
  }

  /** A load that finds the stack empty answers as the abstract stack does at that moment. */
  lemma StepLoadEmpty(s: State, nodes: seq<nat>, t: nat, s': State)
    requires Inv(s, nodes) && t < |s.threads| && Owned(s.threads[t]) == {} && s.head == NULL
    requires s' == LoadHead(s, t)
    ensures Inv(s', nodes)
  {
    HeadInUse(s, nodes);
    ReplayAppend(s.log, Empty);
    DueKept(s, s', t);
    forall u | 0 <= u < |s.threads| ensures ThreadOk(s', s'.threads[u]) {
      assert ThreadOk(s, s.threads[u]);
    }
  }

  lemma StepLoadHead(s: State, nodes: seq<nat>, t: nat, s': State)
    requires Inv(s, nodes) && t < |s.threads| && Owned(s.threads[t]) == {} && s.head != NULL
    requires s' == LoadHead(s, t)
    ensures Inv(s', nodes)
  {
    HeadInUse(s, nodes);
    DueKept(s, s', t);
    assert s.head in nodes;
    assert Published(s, s.head);
    forall u | 0 <= u < |s.threads| ensures ThreadOk(s', s'.threads[u]) {
      assert ThreadOk(s, s.threads[u]);
    }
  }

  /** What another thread's step must leave alone: all of the heap but node x, and what is published. */
  lemma ThreadFrame(s: State, s': State, me: Thread, x: nat)
    requires s'.modulus == s.modulus > 0 && s'.recycle == s.recycle && ThreadOk(s, me)
    requires s.changes <= s'.changes && (s'.changes == s.changes ==> s'.head == s.head)
    requires s.used <= s'.used && s.log <= s'.log && s'.returned == s.returned
    requires s.heap.Keys <= s'.heap.Keys
    requires forall n :: n in s.heap && n != x ==> s'.heap[n] == s.heap[n]
    requires forall p :: Published(s, p) ==> Published(s', p)
    requires me.PopTake? || me.PushNew? || me.PushTry? ==> me.node != x
    requires me.PopTry? && (!s.recycle || me.seen == s'.changes) ==> me.ptr != x
    ensures ThreadOk(s', me)
  {
  }

  lemma CasPushOther(s: State, nodes: seq<nat>, a: Action, s': State, u: nat)
    requires a.CasPush? && Inv(s, nodes) && Next(s, a, s') && u < |s.threads| && u != a.t
    ensures ThreadOk(s', s.threads[u])
  {
    var x := s.threads[a.t].node;
    HeadInUse(s, nodes);
    assert ThreadOk(s, s.threads[u]) && ThreadOk(s, s.threads[a.t]);
    assert Owned(s.threads[u]) !! Owned(s.threads[a.t]);
    assert x in Owned(s.threads[a.t]) && x !in nodes;
    ThreadFrame(s, s', s.threads[u], x);
  }

  lemma CasPushSelf(s: State, nodes: seq<nat>, a: Action, s': State)
    requires a.CasPush? && Inv(s, nodes) && Next(s, a, s')
    ensures Machine(s') && ThreadOk(s', s'.threads[a.t])
  {
    assert ThreadOk(s, s.threads[a.t]);
  }

  lemma CasPushThreads(s: State, nodes: seq<nat>, a: Action, s': State)
    requires a.CasPush? && Inv(s, nodes) && Next(s, a, s')
    ensures Machine(s') && Threads(s')
  {
    CasPushSelf(s, nodes, a, s');
    forall u | 0 <= u < |s'.threads| ensures ThreadOk(s', s'.threads[u]) {
      if u != a.t {
        CasPushOther(s, nodes, a, s', u);
      }
    }
  }

  lemma StepCasPushFail(s: State, nodes: seq<nat>, a: Action, s': State)
    requires a.CasPush? && Inv(s, nodes) && Next(s, a, s')
    requires !Matches(s, s.threads[a.t]) || a.fail
    ensures Inv(s', nodes)
  {
    CasPushThreads(s, nodes, a, s');
    ListMembers(s.heap, s.head, nodes);
    ListFrame(s.heap, s'.heap, s.head, nodes);
    DueKept(s, s', a.t);
  }

  lemma CasPushOwners(s: State, nodes: seq<nat>, a: Action, s': State)
    requires a.CasPush? && Inv(s, nodes) && Next(s, a, s')
    requires Matches(s, s.threads[a.t]) && !a.fail
    ensures Owners(s', [s.threads[a.t].node] + nodes) && Takes(s')
  {
    assert ThreadOk(s, s.threads[a.t]) && s.threads[a.t].node in Owned(s.threads[a.t]);
    DueKept(s, s', a.t);
  }

  /** The winning push is one push of the abstract stack. */
  lemma StepCasPushWin(s: State, nodes: seq<nat>, a: Action, s': State)
    requires a.CasPush? && Inv(s, nodes) && Next(s, a, s')
    requires Matches(s, s.threads[a.t]) && !a.fail
    ensures Inv(s', [s.threads[a.t].node] + nodes)
  {
    var me := s.threads[a.t];
    CasPushThreads(s, nodes, a, s');
    CasPushOwners(s, nodes, a, s');
    assert me.node in Owned(me);
    assert me.node !in nodes;
    ListMembers(s.heap, s.head, nodes);
    ListFrame(s.heap, s'.heap, s.head, nodes);
    assert ([me.node] + nodes)[1..] == nodes;
    ReplayAppend(s.log, Push(s.heap[me.node].value));
  }

  /** Within the window an unchanged head means an unchanged stack, so the snapshot's link is still right. */
  lemma PopSnapshotIsCurrent(s: State, nodes: seq<nat>, a: Action)
    requires a.CasPop? && Inv(s, nodes) && Enabled(s, a) && InWindow(s, a)
    requires Matches(s, s.threads[a.t]) && !a.fail
    ensures var me := s.threads[a.t];
            nodes != [] && nodes[0] == me.ptr == s.head && me.next == s.heap[me.ptr].next
  {
    var me := s.threads[a.t];
    assert ThreadOk(s, me);
    HeadInUse(s, nodes);
    if s.recycle {
      SameTagSameCount(s.changes, me.seen, s.modulus);
    }
  }

  lemma CasPopOther(s: State, nodes: seq<nat>, a: Action, s': State, u: nat)
    requires a.CasPop? && Inv(s, nodes) && Next(s, a, s') && u < |s.threads| && u != a.t
    requires Matches(s, s.threads[a.t]) && !a.fail
    ensures ThreadOk(s', s.threads[u])
  {
    assert ThreadOk(s, s.threads[u]);
    ThreadFrame(s, s', s.threads[u], NULL);
  }

  lemma CasPopSelf(s: State, nodes: seq<nat>, a: Action, s': State)
    requires a.CasPop? && Inv(s, nodes) && WindowedNext(s, a, s')
    requires Matches(s, s.threads[a.t]) && !a.fail
    ensures Machine(s') && ThreadOk(s', s'.threads[a.t])
  {
    PopSnapshotIsCurrent(s, nodes, a);
  }

  lemma CasPopThreads(s: State, nodes: seq<nat>, a: Action, s': State)
    requires a.CasPop? && Inv(s, nodes) && WindowedNext(s, a, s')
    requires Matches(s, s.threads[a.t]) && !a.fail
    ensures Machine(s') && Threads(s')
  {
    CasPopSelf(s, nodes, a, s');
    forall u | 0 <= u < |s'.threads| ensures ThreadOk(s', s'.threads[u]) {
      if u != a.t {
        CasPopOther(s, nodes, a, s', u);
      }
    }
  }

  lemma CasPopOwners(s: State, nodes: seq<nat>, a: Action, s': State)
    requires a.CasPop? && Inv(s, nodes) && WindowedNext(s, a, s')
    requires Matches(s, s.threads[a.t]) && !a.fail
    ensures Owners(s', nodes[1..])
  {
    PopSnapshotIsCurrent(s, nodes, a);
    assert s.head in nodes;
    forall n | n in nodes[1..] ensures n in nodes && n != s.head {
      var i :| 0 <= i < |nodes| - 1 && nodes[1..][i] == n;
      assert nodes[i + 1] == n;
    }
    assert Owned(s.threads[a.t]) == {} && Owned(s'.threads[a.t]) == {s.head};
  }

  lemma CasPopTakes(s: State, nodes: seq<nat>, a: Action, s': State)
    requires a.CasPop? && Inv(s, nodes) && Next(s, a, s')
    requires Matches(s, s.threads[a.t]) && !a.fail
    ensures Takes(s')
  {
    DueKept(s, s', a.t);
    assert s'.threads[a.t].PopTake? && s'.threads[a.t].at == |s.log|;
    forall u | 0 <= u < |s.threads| && s.threads[u].PopTake? ensures s.threads[u].at < |s.log| {
      assert ThreadOk(s, s.threads[u]);
    }
  }

  /** The winning pop is one pop of the abstract stack. */
  lemma StepCasPopWin(s: State, nodes: seq<nat>, a: Action, s': State)
    requires a.CasPop? && Inv(s, nodes) && WindowedNext(s, a, s')
    requires Matches(s, s.threads[a.t]) && !a.fail
    ensures Inv(s', nodes[1..])
  {
    PopSnapshotIsCurrent(s, nodes, a);
    CasPopThreads(s, nodes, a, s');
    CasPopOwners(s, nodes, a, s');
    CasPopTakes(s, nodes, a, s');
    ReplayAppend(s.log, Pop(s.heap[s.head].value));
  }

  lemma AskKeepsInv(s: State, nodes: seq<nat>, t: nat, call: Call)
    requires Inv(s, nodes) && t < |s.calls|
    ensures Inv(Ask(s, t, call), nodes)
  {
    var s' := Ask(s, t, call);
    forall u | 0 <= u < |s.threads| ensures ThreadOk(s', s'.threads[u]) {
      assert ThreadOk(s, s.threads[u]);
    }
    assert forall i :: Due(s, i) ==> Due(s', i);
  }

  lemma StepInv(s: State, nodes: seq<nat>, a: Action, s': State)
    returns (nodes': seq<nat>)
    requires Inv(s, nodes) && WindowedNext(s, a, s')
    ensures Inv(s', nodes')
  {
    nodes' := nodes;
    match a
    case Alloc(t, node, v) => StepAlloc(s, nodes, a, s');
    case LoadForPush(t) => StepLoadForPush(s, nodes, a, s');
    case ReadNext(t) => StepReadNext(s, nodes, a, s');
    case Take(t) => StepTake(s, nodes, a, s');
    case LoadForPop(t) =>
      AskKeepsInv(s, nodes, t, PopCall);
      if s.head == NULL {
        StepLoadEmpty(Ask(s, t, PopCall), nodes, t, s');
      } else {
        StepLoadHead(Ask(s, t, PopCall), nodes, t, s');
      }
    case CasPush(t, fail) =>
      if Matches(s, s.threads[t]) && !fail {
        StepCasPushWin(s, nodes, a, s');
        nodes' := [s.threads[t].node] + nodes;
      } else {
        StepCasPushFail(s, nodes, a, s');
      }
    case CasPop(t, fail) =>
      if Matches(s, s.threads[t]) && !fail {
        StepCasPopWin(s, nodes, a, s');
        nodes' := nodes[1..];
      } else if s.head == NULL {
        StepLoadEmpty(s, nodes, t, s');
      } else {
        StepLoadHead(s, nodes, t, s');
      }
  }

  // ---------- whose operations ----------

  function CallOf(op: Op): Call {
    match op
    case Push(v) => PushCall(v)
    case _ => PopCall
  }

  /** The calls of thread t that the log holds, in its order. */
  function DoneBy(log: seq<Op>, who: seq<nat>, t: nat): seq<Call>
    requires |who| == |log|
  {
    if log == [] then []
    else
      var n := |log| - 1;
      DoneBy(log[..n], who[..n], t) + if who[n] == t then [CallOf(log[n])] else []
  }

  /** The call of a thread that has not taken effect yet. */
  function Pending(me: Thread): seq<Call> {
    match me
    case PushNew(_, value) => [PushCall(value)]
    case PushTry(_, value, _, _, _) => [PushCall(value)]
    case PopRead(_, _, _) => [PopCall]
    case PopTry(_, _, _, _) => [PopCall]
    case _ => []
  }

  /** What an action, and a run, asks of thread t. */
  function AskedBy(a: Action, t: nat): seq<Call> {
    if a.t != t then []
    else
      match a
      case Alloc(_, _, value) => [PushCall(value)]
      case LoadForPop(_) => [PopCall]
      case _ => []
  }

  function Asked(acts: seq<Action>, t: nat): seq<Call> {
    if acts == [] then [] else AskedBy(acts[0], t) + Asked(acts[1..], t)
  }

  /** Each thread's calls are in the log in its own order, but for the one that is under way. */
  ghost predicate ThreadHistory(s: State, t: nat)
    requires |s.calls| == |s.threads| && |s.who| == |s.log| && t < |s.threads|
  {
    && s.calls[t] == DoneBy(s.log, s.who, t) + Pending(s.threads[t])
    && (s.threads[t].PopTake? ==> s.threads[t].at < |s.who| && s.who[s.threads[t].at] == t)
  }

  ghost predicate History(s: State) {
    && |s.calls| == |s.threads| && |s.who| == |s.log|
    && forall t :: 0 <= t < |s.threads| ==> ThreadHistory(s, t)
  }

  lemma DoneByAppend(log: seq<Op>, who: seq<nat>, op: Op, u: nat, t: nat)
    requires |who| == |log|
    ensures DoneBy(log + [op], who + [u], t) == DoneBy(log, who, t) + if u == t then [CallOf(op)] else []
  {
    assert (log + [op])[..|log|] == log && (who + [u])[..|who|] == who;
  }

  /** What a step logs. */
  lemma StepLogs(s: State, a: Action, s': State)
    requires Next(s, a, s') && |s.who| == |s.log|
    ensures (s'.log == s.log && s'.who == s.who) ||
            (exists op :: s'.log == s.log + [op] && s'.who == s.who + [a.t])
  {
    if s'.log != s.log {
      assert s'.log == s.log + [s'.log[|s.log|]];
    }
  }

  lemma StepAsks(s: State, a: Action, s': State, t: nat)
    requires Next(s, a, s') && t < |s.calls|
    ensures |s'.calls| == |s'.threads| == |s.calls| && s'.calls[t] == s.calls[t] + AskedBy(a, t)
    ensures t != a.t ==> s'.threads[t] == s.threads[t]
  {
  }

  lemma OtherHistory(s: State, a: Action, s': State, t: nat)
    requires |s.calls| == |s.threads| && |s.who| == |s.log| && t < |s.threads| && t != a.t
    requires |s'.calls| == |s'.threads| == |s.threads| && |s'.who| == |s'.log|
    requires s'.calls[t] == s.calls[t] && s'.threads[t] == s.threads[t] && ThreadHistory(s, t)
    requires (s'.log == s.log && s'.who == s.who) ||
             (exists op :: s'.log == s.log + [op] && s'.who == s.who + [a.t])
    ensures ThreadHistory(s', t)
  {
    if op :| s'.log == s.log + [op] && s'.who == s.who + [a.t] {
      DoneByAppend(s.log, s.who, op, a.t, t);
    }
  }

  /** The history of a thread that logs an operation: its pending call is that operation. */
  lemma LogHistory(s: State, s': State, t: nat, op: Op)
    requires |s.calls| == |s.threads| == |s'.threads| && |s.who| == |s.log| && t < |s.threads|
    requires s'.calls == s.calls && s'.log == s.log + [op] && s'.who == s.who + [t]
    requires s.calls[t] == DoneBy(s.log, s.who, t) + [CallOf(op)] && Pending(s'.threads[t]) == []
    requires s'.threads[t].PopTake? ==> s'.threads[t].at == |s.log|
    ensures ThreadHistory(s', t)
  {
    DoneByAppend(s.log, s.who, op, t, t);
  }

  lemma LoadHistory(s: State, t: nat, s': State)
    requires |s.calls| == |s.threads| && |s.who| == |s.log| && t < |s.threads|
    requires s.calls[t] == DoneBy(s.log, s.who, t) + [PopCall] && s' == LoadHead(s, t)
    ensures |s'.calls| == |s'.threads| == |s.threads| && |s'.who| == |s'.log| && ThreadHistory(s', t)
  {
    if s.head == NULL {
      LogHistory(s, s', t, Empty);
    }
  }

  lemma CasPushHistory(s: State, t: nat, fail: bool, s': State)
    requires History(s) && Next(s, CasPush(t, fail), s') && Carries(s, s.threads[t].node, s.threads[t].value)
    ensures |s'.calls| == |s'.threads| == |s.threads| && |s'.who| == |s'.log| && ThreadHistory(s', t)
  {
    assert ThreadHistory(s, t);
    if Matches(s, s.threads[t]) && !fail {
      LogHistory(s, s', t, Push(s.threads[t].value));
    }
  }

  lemma CasPopHistory(s: State, t: nat, fail: bool, s': State)
    requires History(s) && Next(s, CasPop(t, fail), s')
    ensures |s'.calls| == |s'.threads| == |s.threads| && |s'.who| == |s'.log| && ThreadHistory(s', t)
  {
    assert ThreadHistory(s, t);
    if Matches(s, s.threads[t]) && !fail {
      LogHistory(s, s', t, Pop(s.heap[s.threads[t].ptr].value));
    } else {
      LoadHistory(s, t, s');
    }
  }

  lemma OwnHistory(s: State, nodes: seq<nat>, a: Action, s': State)
    requires Inv(s, nodes) && History(s) && Next(s, a, s')
    ensures |s'.calls| == |s'.threads| == |s.threads| && |s'.who| == |s'.log| && ThreadHistory(s', a.t)
  {
    assert ThreadHistory(s, a.t) && ThreadOk(s, s.threads[a.t]);
    match a
    case CasPush(t, fail) => CasPushHistory(s, t, fail, s');
    case CasPop(t, fail) => CasPopHistory(s, t, fail, s');
    case LoadForPop(t) => LoadHistory(Ask(s, t, PopCall), t, s');
    case _ =>
  }

  lemma HistoryStep(s: State, nodes: seq<nat>, a: Action, s': State)
    requires Inv(s, nodes) && History(s) && Next(s, a, s')
    ensures History(s')
  {
    OwnHistory(s, nodes, a, s');
    StepLogs(s, a, s');
    forall t | 0 <= t < |s'.threads| ensures ThreadHistory(s', t) {
      if t != a.t {
        StepAsks(s, a, s', t);
        OtherHistory(s, a, s', t);
      }
    }
  }

  predicate CallsGrow(s: State, a: Action, s': State, t: nat) {
    t < |s.calls| ==> |s'.calls| == |s.calls| && s'.calls[t] == s.calls[t] + AskedBy(a, t)
  }

  /** `calls` is what the run asks for. */
  lemma {:induction false} CallsAreAsked(
    next: (State, Action, State) -> bool, s0: State, acts: seq<Action>, s: State, t: nat)
    requires forall x, a, y :: next(x, a, y) ==> CallsGrow(x, a, y, t)
    requires Run(next, s0, acts, s) && t < |s0.calls|
    ensures |s.calls| == |s0.calls| && s.calls[t] == s0.calls[t] + Asked(acts, t)
    decreases |acts|
  {
    if acts != [] {
      var m :| next(s0, acts[0], m) && Run(next, m, acts[1..], s);
      CallsAreAsked(next, m, acts[1..], s, t);
      AskedAfter(s0, acts, m, s, t);
    }
  }

  lemma AskedAfter(s0: State, acts: seq<Action>, m: State, s: State, t: nat)
    requires acts != [] && t < |s0.calls| && CallsGrow(s0, acts[0], m, t)
    requires |s.calls| == |m.calls| && s.calls[t] == m.calls[t] + Asked(acts[1..], t)
    ensures |s.calls| == |s0.calls| && s.calls[t] == s0.calls[t] + Asked(acts, t)
  {
    Associates(s0.calls[t], AskedBy(acts[0], t), Asked(acts[1..], t));
  }

  lemma Associates<T>(left: seq<T>, middle: seq<T>, right: seq<T>)
    ensures (left + middle) + right == left + (middle + right)
  {
  }

  // ---------- linearizability ----------

  ghost predicate Reached(s: State) { History(s) && exists nodes :: Inv(s, nodes) }

  lemma ReachedStep(s: State, a: Action, s': State)
    requires Reached(s) && WindowedNext(s, a, s')
    ensures Reached(s')
  {
    var nodes :| Inv(s, nodes);
    HistoryStep(s, nodes, a, s');
    var nodes' := StepInv(s, nodes, a, s');
  }

  lemma RunReaches(s0: State, acts: seq<Action>, s: State)
    requires Init(s0) && Run(WindowedNext, s0, acts, s)
    ensures Reached(s)
  {
    InitInv(s0);
    assert Reached(s0);
    forall x, a, y | Reached(x) && WindowedNext(x, a, y) ensures Reached(y) {
      ReachedStep(x, a, y);
    }
    RunInvariant(WindowedNext, Reached, s0, acts, s);
  }

  /**
    Any number of threads, any schedule: the list at the head is acyclic, its
    values are what a sequential stack holds after the operations in the order of
    their winning steps, every answer is that stack's answer, and each popped
    value is returned at most once.  The operations are the callers': each thread's
    are those it was asked for, in its order, all but the one under way.
   */
  lemma Linearizable(s0: State, acts: seq<Action>, s: State) returns (nodes: seq<nat>)
    requires Init(s0) && Run(WindowedNext, s0, acts, s)
    ensures Refines(s, nodes)
    ensures forall other :: IsList(s.heap, s.head, other) ==> other == nodes
    ensures forall t :: 0 <= t < |s.threads| && s.threads[t].PopTake? ==> s.threads[t].at !in s.returned
    ensures AsAsked(acts, s)
  {
    RunReaches(s0, acts, s);
    nodes :| Inv(s, nodes);
    forall other | IsList(s.heap, s.head, other) ensures other == nodes {
      ListUnique(s.heap, s.head, other, nodes);
    }
    forall t | 0 <= t < |s.threads| && s.threads[t].PopTake? ensures s.threads[t].at !in s.returned {
      assert ThreadOk(s, s.threads[t]);
    }
    RunIsAsAsked(s0, acts, s);
  }

  /**
    The log holds what each thread was asked for during `acts`, but for the call under way,
    and a pop answers the thread that asked.
   */
  ghost predicate AsAsked(acts: seq<Action>, s: State) {
    && |s.who| == |s.log|
    && (forall t :: 0 <= t < |s.threads| ==> Asked(acts, t) == DoneBy(s.log, s.who, t) + Pending(s.threads[t]))
    && (forall t :: 0 <= t < |s.threads| && s.threads[t].PopTake? ==>
          s.threads[t].at < |s.who| && s.who[s.threads[t].at] == t)
  }

  lemma WindowedGrows(s: State, a: Action, s': State, t: nat)
    requires WindowedNext(s, a, s')
    ensures CallsGrow(s, a, s', t) && |s'.calls| == |s.calls|
  {
    StepAsks(s, a, s', a.t);
    if t < |s.calls| {
      StepAsks(s, a, s', t);
    }
  }

  lemma RunAsks(s0: State, acts: seq<Action>, s: State, t: nat)
    requires Init(s0) && Run(WindowedNext, s0, acts, s) && t < |s.calls|
    ensures s.calls[t] == Asked(acts, t)
  {
    var inv := (x: State) => |x.calls| == |s0.calls|;
    forall x, a, y | WindowedNext(x, a, y) ensures CallsGrow(x, a, y, t) && |y.calls| == |x.calls| {
      WindowedGrows(x, a, y, t);
    }
    RunInvariant(WindowedNext, inv, s0, acts, s);
    CallsAreAsked(WindowedNext, s0, acts, s, t);
  }

  lemma RunIsAsAsked(s0: State, acts: seq<Action>, s: State)
    requires Init(s0) && Run(WindowedNext, s0, acts, s)
    ensures AsAsked(acts, s)
  {
    RunReaches(s0, acts, s);
    forall t | 0 <= t < |s.threads|
      ensures Asked(acts, t) == DoneBy(s.log, s.who, t) + Pending(s.threads[t])
      ensures s.threads[t].PopTake? ==> s.threads[t].at < |s.who| && s.who[s.threads[t].at] == t
    {
      assert ThreadHistory(s, t);
      RunAsks(s0, acts, s, t);
    }
  }

  /** Nodes that are never reused make every schedule linearizable, with or without a tag. */
  lemma LeakingStackLinearizable(s0: State, acts: seq<Action>, s: State) returns (nodes: seq<nat>)
    requires Init(s0) && !s0.recycle && Run(Next, s0, acts, s)
    ensures Refines(s, nodes) && AsAsked(acts, s)
  {
    LeakingRunsAreWindowed(s0, acts, s);
    nodes := Linearizable(s0, acts, s);
  }

  lemma {:induction false} LeakingRunsAreWindowed(s0: State, acts: seq<Action>, s: State)
    requires !s0.recycle && Run(Next, s0, acts, s)
    ensures Run(WindowedNext, s0, acts, s)
    decreases |acts|
  {
    if acts != [] {
      var m :| Next(s0, acts[0], m) && Run(Next, m, acts[1..], s);
      assert WindowedNext(s0, acts[0], m);
      LeakingRunsAreWindowed(m, acts[1..], s);
    }
  }

  function Pushes(log: seq<Op>): multiset<int> {
    if log == [] then multiset{} else
    Pushes(log[..|log| - 1]) + match log[|log| - 1] case Push(v) => multiset{v} case _ => multiset{}
  }

  function Pops(log: seq<Op>): multiset<int> {
    if log == [] then multiset{} else
    Pops(log[..|log| - 1]) + match log[|log| - 1] case Pop(v) => multiset{v} case _ => multiset{}
  }

  lemma ConservedStep(before: seq<int>, op: Op, pushes: multiset<int>, pops: multiset<int>)
    requires pushes == pops + multiset(before) && RunOp(Legal(before), op).Legal?
    ensures var after := RunOp(Legal(before), op).values;
      match op
      case Push(v) => pushes + multiset{v} == pops + multiset(after)
      case Pop(v) => pushes == pops + multiset{v} + multiset(after)
      case Empty => after == before
  {
    if op.Pop? {
      assert before == [before[0]] + before[1..];
    }
  }

  /** Every value pushed is either popped or still there, as often as it was pushed. */
  lemma {:induction false} Conservation(log: seq<Op>)
    requires Replay(log).Legal?
    ensures Pushes(log) == Pops(log) + multiset(Replay(log).values)
  {
    if log != [] {
      var front, last := log[..|log| - 1], log[|log| - 1];
      Conservation(front);
      ConservedStep(Replay(front).values, last, Pushes(front), Pops(front));
    }
  }

  /** With no operation under way, every call has taken effect once, and the values returned are those of the pops. */
  lemma AllPopsReturned(s0: State, acts: seq<Action>, s: State)
    requires Init(s0) && Run(WindowedNext, s0, acts, s)
    requires forall t :: 0 <= t < |s.threads| ==> s.threads[t].Idle?
    ensures forall i: nat :: i in s.returned <==> i < |s.log| && s.log[i].Pop?
    ensures |s.who| == |s.log| && forall t :: 0 <= t < |s.threads| ==> Asked(acts, t) == DoneBy(s.log, s.who, t)
  {
    RunIsAsAsked(s0, acts, s);
    RunReaches(s0, acts, s);
    var nodes :| Inv(s, nodes);
    forall i: nat | i < |s.log| && s.log[i].Pop? ensures i in s.returned {
      assert i in s.returned || Due(s, i);
    }
  }

  // ---------- operations that run alone ----------

  function AfterPush(s: State, t: nat, node: nat, value: int): State
    requires s.modulus > 0 && t < |s.calls|
  {
    Ask(SetHead(s, t, node, Push(value)), t, PushCall(value)).(
      heap := s.heap[node := Node(value, s.head)], used := s.used + {node})
  }

  function AfterPop(s: State, t: nat): State
    requires s.modulus > 0 && s.head in s.heap && t < |s.calls|
  {
    var top := s.heap[s.head];
    Ask(SetHead(s, t, top.next, Pop(top.value)), t, PopCall).(
      returned := s.returned[|s.log| := top.value],
      used := if s.recycle then s.used - {s.head} else s.used)
  }

  /** A push that nobody disturbs takes three steps and pushes. */
  lemma PushAlone(s: State, t: nat, node: nat, value: int) returns (acts: seq<Action>)
    requires s.modulus > 0 && t < |s.threads| == |s.calls| && s.threads[t] == Idle && node != NULL && node !in s.used
    ensures Run(WindowedNext, s, acts, AfterPush(s, t, node, value))
  {
    var s1 := Apply(s, Alloc(t, node, value));
    var s2 := Apply(s1, LoadForPush(t));
    var s3 := Apply(s2, CasPush(t, false));
    Single(WindowedNext, s, Alloc(t, node, value), s1);
    Single(WindowedNext, s1, LoadForPush(t), s2);
    Single(WindowedNext, s2, CasPush(t, false), s3);
    Concat(WindowedNext, s, [Alloc(t, node, value)], s1, [LoadForPush(t)], s2);
    acts := [Alloc(t, node, value)] + [LoadForPush(t)] + [CasPush(t, false)];
    Concat(WindowedNext, s, [Alloc(t, node, value)] + [LoadForPush(t)], s2, [CasPush(t, false)], s3);
    assert s3.threads == s.threads;
    assert s3.heap == AfterPush(s, t, node, value).heap;
  }

  /** A pop that nobody disturbs takes four steps and pops. */
  lemma PopAlone(s: State, t: nat) returns (acts: seq<Action>)
    requires s.modulus > 0 && t < |s.threads| == |s.calls| && s.threads[t] == Idle
    requires s.head in s.heap && s.head != NULL
    ensures Run(WindowedNext, s, acts, AfterPop(s, t))
  {
    var s1 := Apply(s, LoadForPop(t));
    var s2 := Apply(s1, ReadNext(t));
    var s3 := Apply(s2, CasPop(t, false));
    var s4 := Apply(s3, Take(t));
    Single(WindowedNext, s, LoadForPop(t), s1);
    Single(WindowedNext, s1, ReadNext(t), s2);
    Single(WindowedNext, s2, CasPop(t, false), s3);
    Single(WindowedNext, s3, Take(t), s4);
    Concat(WindowedNext, s, [LoadForPop(t)], s1, [ReadNext(t)], s2);
    Concat(WindowedNext, s2, [CasPop(t, false)], s3, [Take(t)], s4);
    acts := [LoadForPop(t)] + [ReadNext(t)] + ([CasPop(t, false)] + [Take(t)]);
    Concat(WindowedNext, s, [LoadForPop(t)] + [ReadNext(t)], s2, [CasPop(t, false)] + [Take(t)], s4);
    assert s4.threads == s.threads;
  }

  lemma PushTwiceAlone(s: State, t: nat, n: nat, v: int, m: nat, w: int) returns (acts: seq<Action>)
    requires s.modulus > 0 && t < |s.threads| == |s.calls| && s.threads[t] == Idle
    requires n != NULL && m != NULL && n != m && n !in s.used && m !in s.used
    ensures Run(WindowedNext, s, acts, AfterPush(AfterPush(s, t, n, v), t, m, w))
  {
    var s1 := AfterPush(s, t, n, v);
    var first := PushAlone(s, t, n, v);
    var second := PushAlone(s1, t, m, w);
    acts := first + second;
    Concat(WindowedNext, s, first, s1, second, AfterPush(s1, t, m, w));
  }

  lemma PopTwiceAlone(s: State, t: nat) returns (acts: seq<Action>)
    requires s.modulus > 0 && t < |s.threads| == |s.calls| && s.threads[t] == Idle
    requires s.head in s.heap && s.head != NULL
    requires var next := s.heap[s.head].next; next in s.heap && next != NULL
    ensures Run(WindowedNext, s, acts, AfterPop(AfterPop(s, t), t))
  {
    var s1 := AfterPop(s, t);
    var first := PopAlone(s, t);
    var second := PopAlone(s1, t);
    acts := first + second;
    Concat(WindowedNext, s, first, s1, second, AfterPop(s1, t));
  }

  lemma PushThenPopAlone(s: State, t: nat, n: nat, v: int) returns (acts: seq<Action>)
    requires s.modulus > 0 && t < |s.threads| == |s.calls| && s.threads[t] == Idle && n != NULL && n !in s.used
    ensures Run(WindowedNext, s, acts, AfterPop(AfterPush(s, t, n, v), t))
  {
    var s1 := AfterPush(s, t, n, v);
    var first := PushAlone(s, t, n, v);
    var second := PopAlone(s1, t);
    acts := first + second;
    Concat(WindowedNext, s, first, s1, second, AfterPop(s1, t));
  }

  // ---------- the window is exact ----------

  /** The tag counts the changes. */
  predicate Tagged(s: State) {
    s.modulus > 0 && s.tag == TagOf(s.changes, s.modulus)
  }

  lemma SetHeadTags(s: State, t: nat, head: nat, op: Op)
    requires Tagged(s)
    ensures Tagged(SetHead(s, t, head, op))
  {
  }

  lemma ReplayTwo(log: seq<Op>, first: Op, second: Op)
    ensures Replay(log + [first] + [second]) == RunOp(RunOp(Replay(log), first), second)
  {
    ReplayAppend(log, first);
    ReplayAppend(log + [first], second);
  }

  /** The stack [10, 20] on nodes 1 and 2, before any thread loads it. */
  ghost predicate Built(s: State) {
    && Tagged(s) && s.recycle && s.threads == [Idle, Idle] && |s.calls| == 2 && s.changes == 2
    && s.head == 1 && s.used == {1, 2} && Replay(s.log) == Legal([10, 20])
    && s.heap == map[2 := Node(20, NULL), 1 := Node(10, 2)]
  }

  /**
    Thread 0 is about to swing the head from node 1 to a link that no longer is node 1's:
    the list from there is `wrong`, while `rest` is what lies below the top.
   */
  ghost predicate Stale(s: State, seen: nat, wrong: seq<nat>, rest: seq<int>) {
    && Tagged(s) && s.recycle && |s.threads| == |s.calls| == 2 && s.threads[1] == Idle
    && s.threads[0].PopTry? && s.threads[0].ptr == s.head == 1 && s.threads[0].seen == seen <= s.changes
    && s.threads[0].tag == TagOf(seen, s.modulus)
    && s.used <= {1, 2} && 1 in s.heap && s.heap[1].value == 10 && Replay(s.log) == Legal([10] + rest)
    && IsList(s.heap, s.threads[0].next, wrong) && 4 !in wrong && Values(s.heap, wrong) != rest
  }

  function Start(modulus: nat): State {
    State(modulus, true, map[], NULL, 0, [Idle, Idle], {}, 0, [], map[], [], [[], []])
  }

  lemma BuiltFacts(modulus: nat)
    requires modulus > 0
    ensures Built(AfterPush(AfterPush(Start(modulus), 1, 2, 20), 1, 1, 10))
  {
    var s1 := AfterPush(Start(modulus), 1, 2, 20);
    assert AfterPush(s1, 1, 1, 10).log == [] + [Push(20)] + [Push(10)];
    assert TagOf(0, modulus) == 0 && TagOf(1, modulus) == NextTag(0, modulus);
    ReplayTwo([], Push(20), Push(10));
    assert [20] + [] == [20];
    assert [10] + [20] == [10, 20];
  }

  /** Thread 0 loads node 1, and reads its link only after thread 1 has popped, freed and reallocated it. */
  lemma VictimReadsFreshNode(s: State) returns (acts: seq<Action>, t: State)
    requires Built(s)
    ensures Run(WindowedNext, s, acts, t) && Tagged(t) && t.modulus == s.modulus
    ensures t == s.(heap := s.heap[1 := Node(10, NULL)], head := 2, tag := t.tag, changes := 3,
                    log := s.log + [Pop(10)], returned := t.returned,
                    threads := [PopTry(1, s.tag, NULL, 2), PushNew(1, 10)], who := t.who, calls := t.calls)
    ensures |t.calls| == 2
  {
    var s1 := Apply(s, LoadForPop(0));
    var s2 := AfterPop(s1, 1);
    var pop := PopAlone(s1, 1);
    var s3 := Apply(s2, Alloc(1, 1, 10));
    t := Apply(s3, ReadNext(0));
    assert s3.heap == s.heap[1 := Node(10, NULL)] && s3.used == {1, 2};
    Single(WindowedNext, s, LoadForPop(0), s1);
    Single(WindowedNext, s2, Alloc(1, 1, 10), s3);
    Single(WindowedNext, s3, ReadNext(0), t);
    Concat(WindowedNext, s2, [Alloc(1, 1, 10)], s3, [ReadNext(0)], t);
    Concat(WindowedNext, s1, pop, s2, [Alloc(1, 1, 10)] + [ReadNext(0)], t);
    acts := [LoadForPop(0)] + (pop + ([Alloc(1, 1, 10)] + [ReadNext(0)]));
    Concat(WindowedNext, s, [LoadForPop(0)], s1, pop + ([Alloc(1, 1, 10)] + [ReadNext(0)]), t);
  }

  /** Two changes: node 1 is popped and pushed again, and the victim holds the link it had in between. */
  lemma StaleAfterTwo(s: State) returns (acts: seq<Action>, t: State)
    requires Built(s)
    ensures Run(WindowedNext, s, acts, t) && Stale(t, 2, [], [20]) && t.changes == 4 && t.modulus == s.modulus
  {
    var read, s1 := VictimReadsFreshNode(s);
    var s2 := Apply(s1, LoadForPush(1));
    t := Apply(s2, CasPush(1, false));
    Single(WindowedNext, s1, LoadForPush(1), s2);
    Single(WindowedNext, s2, CasPush(1, false), t);
    Concat(WindowedNext, s1, [LoadForPush(1)], s2, [CasPush(1, false)], t);
    acts := read + ([LoadForPush(1)] + [CasPush(1, false)]);
    Concat(WindowedNext, s, read, s1, [LoadForPush(1)] + [CasPush(1, false)], t);
    ReplayTwo(s.log, Pop(10), Push(10));
    assert [10, 20][1..] == [20];
    SetHeadTags(s2, 1, 1, Push(10));
  }

  /** Thread 0 takes its snapshot and the link to node 2. */
  lemma VictimLoads(s: State) returns (acts: seq<Action>, t: State)
    requires Built(s)
    ensures Run(WindowedNext, s, acts, t)
    ensures t == s.(threads := [PopTry(1, s.tag, 2, 2), Idle], calls := t.calls) && |t.calls| == 2
  {
    var s1 := Apply(s, LoadForPop(0));
    t := Apply(s1, ReadNext(0));
    Single(WindowedNext, s, LoadForPop(0), s1);
    Single(WindowedNext, s1, ReadNext(0), t);
    acts := [LoadForPop(0)] + [ReadNext(0)];
    Concat(WindowedNext, s, [LoadForPop(0)], s1, [ReadNext(0)], t);
  }

  lemma PopTwiceThenPush(s: State, m: State)
    requires Built(s) && m == s.(threads := [PopTry(1, s.tag, 2, 2), Idle], calls := m.calls) && |m.calls| == 2
    ensures var t := AfterPush(AfterPop(AfterPop(m, 1), 1), 1, 1, 10); Stale(t, 2, [2], []) && t.changes == 5
  {
    var p := AfterPop(AfterPop(m, 1), 1);
    var t := AfterPush(p, 1, 1, 10);
    SetHeadTags(m, 1, 2, Pop(10));
    SetHeadTags(AfterPop(m, 1), 1, NULL, Pop(20));
    SetHeadTags(p, 1, 1, Push(10));
    ReplayTwo(s.log, Pop(10), Pop(20));
    assert p.log == s.log + [Pop(10)] + [Pop(20)];
    ReplayAppend(p.log, Push(10));
    assert [10, 20][1..] == [20] && [20][1..] == [];
    assert IsList(t.heap, NULL, [2][1..]);
    assert |Values(t.heap, [2])| == 1;
  }

  /** Three changes: pop node 1, pop node 2, and push at the address of node 1. */
  lemma StaleAfterThree(s: State) returns (acts: seq<Action>, t: State)
    requires Built(s)
    ensures Run(WindowedNext, s, acts, t) && Stale(t, 2, [2], []) && t.changes == 5 && t.modulus == s.modulus
  {
    var load, m := VictimLoads(s);
    var pops := PopTwiceAlone(m, 1);
    var p := AfterPop(AfterPop(m, 1), 1);
    var push := PushAlone(p, 1, 1, 10);
    t := AfterPush(p, 1, 1, 10);
    Concat(WindowedNext, m, pops, p, push, t);
    acts := load + (pops + push);
    Concat(WindowedNext, s, load, m, pops + push, t);
    PopTwiceThenPush(s, m);
  }

  /** A push and a pop of node 4: two more changes, and nothing else. */
  lemma StaleAfterPair(s: State, seen: nat, wrong: seq<nat>, rest: seq<int>)
    requires Stale(s, seen, wrong, rest)
    ensures var t := AfterPop(AfterPush(s, 1, 4, 40), 1); Stale(t, seen, wrong, rest) && t.changes == s.changes + 2
  {
    var m := AfterPush(s, 1, 4, 40);
    var t := AfterPop(m, 1);
    ReplayTwo(s.log, Push(40), Pop(40));
    assert ([40] + ([10] + rest))[1..] == [10] + rest;
    assert t.log == s.log + [Push(40)] + [Pop(40)];
    ListMembers(s.heap, s.threads[0].next, wrong);
    ListFrame(s.heap, t.heap, s.threads[0].next, wrong);
  }

  lemma {:induction false} StaleForLong(s: State, seen: nat, wrong: seq<nat>, rest: seq<int>, pairs: nat)
    returns (acts: seq<Action>, t: State)
    requires Stale(s, seen, wrong, rest)
    ensures Run(WindowedNext, s, acts, t) && Stale(t, seen, wrong, rest)
    ensures t.changes == s.changes + 2 * pairs && t.modulus == s.modulus
    decreases pairs
  {
    if pairs == 0 {
      acts, t := [], s;
    } else {
      var m := AfterPop(AfterPush(s, 1, 4, 40), 1);
      var first := PushThenPopAlone(s, 1, 4, 40);
      StaleAfterPair(s, seen, wrong, rest);
      var more;
      more, t := StaleForLong(m, seen, wrong, rest, pairs - 1);
      acts := first + more;
      Concat(WindowedNext, s, first, m, more, t);
    }
  }

  /** The first turn: an even or an odd number of changes. */
  lemma FirstTurn(s: State, odd: bool) returns (acts: seq<Action>, t: State, wrong: seq<nat>, rest: seq<int>)
    requires Built(s)
    ensures Run(WindowedNext, s, acts, t) && Stale(t, 2, wrong, rest)
    ensures t.changes == (if odd then 5 else 4) && t.modulus == s.modulus
  {
    if odd {
      acts, t := StaleAfterThree(s);
      wrong, rest := [2], [];
    } else {
      acts, t := StaleAfterTwo(s);
      wrong, rest := [], [20];
    }
  }

  lemma Build(modulus: nat) returns (acts: seq<Action>, s: State)
    requires modulus > 0
    ensures Run(WindowedNext, Start(modulus), acts, s) && Built(s) && s.modulus == modulus
  {
    acts := PushTwiceAlone(Start(modulus), 1, 2, 20, 1, 10);
    s := AfterPush(AfterPush(Start(modulus), 1, 2, 20), 1, 1, 10);
    BuiltFacts(modulus);
  }

  /** A whole run, every step of it within the window, that leaves the victim stale. */
  lemma VictimIsStale(modulus: nat, odd: bool, pairs: nat)
    returns (acts: seq<Action>, s: State, wrong: seq<nat>, rest: seq<int>)
    requires modulus > 0
    ensures Run(WindowedNext, Start(modulus), acts, s) && Stale(s, 2, wrong, rest)
    ensures s.changes == (if odd then 5 else 4) + 2 * pairs && s.modulus == modulus
  {
    var build, s1 := Build(modulus);
    var turn, s2, wait;
    turn, s2, wrong, rest := FirstTurn(s1, odd);
    wait, s := StaleForLong(s2, 2, wrong, rest, pairs);
    Concat(WindowedNext, s1, turn, s2, wait, s);
    acts := build + (turn + wait);
    Concat(WindowedNext, Start(modulus), build, s1, turn + wait, s);
  }

  /** No list at the head holds what a sequential stack would. */
  ghost predicate Broken(s: State) {
    forall nodes :: !Refines(s, nodes)
  }

  /** The stale pop wins and leaves the wrong list. */
  lemma StalePopBreaks(s: State, seen: nat, wrong: seq<nat>, rest: seq<int>)
    requires Stale(s, seen, wrong, rest) && s.tag == TagOf(seen, s.modulus)
    ensures Enabled(s, CasPop(0, false)) && Matches(s, s.threads[0])
    ensures Broken(Apply(s, CasPop(0, false)))
  {
    var t := Apply(s, CasPop(0, false));
    ReplayAppend(s.log, Pop(10));
    assert ([10] + rest)[1..] == rest;
    forall nodes | IsList(t.heap, t.head, nodes) ensures nodes == wrong {
      ListUnique(t.heap, t.head, nodes, wrong);
    }
  }

  /**
    A run on a recycling heap, within the window up to its last step, in which thread t's
    pop then wins although n head changes have passed since its load.
   */
  ghost predicate StaleWin(modulus: nat, n: nat, s0: State, acts: seq<Action>, s: State, t: nat, s': State) {
    && Init(s0) && s0.modulus == modulus && s0.recycle && Run(WindowedNext, s0, acts, s)
    && Next(s, CasPop(t, false), s') && Matches(s, s.threads[t]) && s.changes == s.threads[t].seen + n
  }

  /**
    Whenever two or more head changes take the tag round to where it was, some pop wins
    after exactly that many and leaves a list that no stack would hold.  Two are enough
    because the victim may read the link while the node is being pushed again; three are
    the pop, pop and push of the textbook.
   */
  lemma AbaBreaksOutsideWindow(modulus: nat, n: nat)
    returns (s0: State, acts: seq<Action>, s: State, t: nat, s': State)
    requires modulus > 0 && n >= 2 && TagOf(n, modulus) == 0
    ensures StaleWin(modulus, n, s0, acts, s, t, s') && Broken(s')
  {
    s0, t := Start(modulus), 0;
    var wrong, rest;
    var odd := n % 2 == 1;
    acts, s, wrong, rest := VictimIsStale(modulus, odd, (if odd then n - 3 else n - 2) / 2);
    SameTagOff(2, n, modulus);
    StalePopBreaks(s, 2, wrong, rest);
    s' := Apply(s, CasPop(t, false));
  }

  /** A turn that brings one tag back is a whole number of turns. */
  lemma {:induction false} TagsTurnTogether(seen: nat, n: nat, modulus: nat)
    requires modulus > 0 && TagOf(seen + n, modulus) == TagOf(seen, modulus)
    ensures TagOf(n, modulus) == 0
  {
    if seen > 0 {
      TagsTurnTogether(seen - 1, n, modulus);
    }
  }

  /** One change always moves the head away from where a pop has seen it. */
  ghost predicate OneOff(s: State) {
    forall t :: 0 <= t < |s.threads| && (s.threads[t].PopRead? || s.threads[t].PopTry?) ==>
      s.threads[t].seen + 1 == s.changes ==> s.threads[t].ptr != s.head
  }

  lemma HeadMoves(s: State, nodes: seq<nat>, a: Action, s': State)
    requires Inv(s, nodes) && WindowedNext(s, a, s')
    ensures (s'.changes == s.changes && s'.head == s.head) || s'.changes == s.changes + 1
    ensures s'.changes != s.changes && s.head != NULL ==> s'.head != s.head
  {
    HeadInUse(s, nodes);
    assert s.head != NULL ==> s.head in nodes;
    if s'.changes != s.changes {
      if a.CasPush? {
        assert s.threads[a.t].node in Owned(s.threads[a.t]);
      } else {
        PopSnapshotIsCurrent(s, nodes, a);
        assert IsList(s.heap, s'.head, nodes[1..]);
        assert if |nodes| == 1 then s'.head == NULL else s'.head == nodes[1..][0] == nodes[1];
        assert |nodes| > 1 ==> nodes[0] != nodes[1];
      }
    }
  }

  lemma OneOffStep(s: State, nodes: seq<nat>, a: Action, s': State)
    requires Inv(s, nodes) && OneOff(s) && WindowedNext(s, a, s')
    ensures OneOff(s')
  {
    HeadMoves(s, nodes, a, s');
    forall t | 0 <= t < |s'.threads| && (s'.threads[t].PopRead? || s'.threads[t].PopTry?)
      && s'.threads[t].seen + 1 == s'.changes
      ensures s'.threads[t].ptr != s'.head
    {
      assert ThreadOk(s, s.threads[t]);
    }
  }

  ghost predicate ReachedOneOff(s: State) { Reached(s) && OneOff(s) }

  lemma RunsAreOneOff(s0: State, acts: seq<Action>, s: State)
    requires Init(s0) && Run(WindowedNext, s0, acts, s)
    ensures ReachedOneOff(s)
  {
    InitInv(s0);
    assert Reached(s0);
    forall x, a, y | ReachedOneOff(x) && WindowedNext(x, a, y) ensures ReachedOneOff(y) {
      var nodes :| Inv(x, nodes);
      OneOffStep(x, nodes, a, y);
      ReachedStep(x, a, y);
    }
    RunInvariant(WindowedNext, ReachedOneOff, s0, acts, s);
  }

  /** A pop that wins and breaks the stack has let a whole turn of the tag pass, and more than one change. */
  lemma BrokenWinIsOutsideWindow(modulus: nat, n: nat, s0: State, acts: seq<Action>, s: State, t: nat, s': State)
    requires StaleWin(modulus, n, s0, acts, s, t, s') && Broken(s') && s.modulus == modulus
    ensures n >= 2 && TagOf(n, modulus) == 0
  {
    RunsAreOneOff(s0, acts, s);
    var nodes :| Inv(s, nodes);
    assert ThreadOk(s, s.threads[t]);
    TagsTurnTogether(s.threads[t].seen, n, modulus);
    if n == 0 {
      WindowedStepRefines(s, CasPop(t, false), s');
      assert false;
    }
  }

  lemma WindowedStepRefines(s: State, a: Action, s': State)
    requires Reached(s) && WindowedNext(s, a, s')
    ensures !Broken(s')
  {
    ReachedStep(s, a, s');
    var after :| Inv(s', after);
    assert Refines(s', after);
  }

  lemma {:induction false} ModulusKept(s0: State, acts: seq<Action>, s: State)
    requires Run(WindowedNext, s0, acts, s)
    ensures s.modulus == s0.modulus
    decreases |acts|
  {
    if acts != [] {
      var m :| WindowedNext(s0, acts[0], m) && Run(WindowedNext, m, acts[1..], s);
      ModulusKept(m, acts[1..], s);
    }
  }

  /**
    ABA, exactly: for every number of tags and every n, a pop that wins n changes after
    its load can break the stack if and only if n is at least two and takes the tag round.
   */
  lemma AbaExactly(modulus: nat, n: nat)
    requires modulus > 0
    ensures n >= 2 && TagOf(n, modulus) == 0 <==>
      exists s0, acts, s, t, s' :: StaleWin(modulus, n, s0, acts, s, t, s') && Broken(s')
  {
    if n >= 2 && TagOf(n, modulus) == 0 {
      var s0, acts, s, t, s' := AbaBreaksOutsideWindow(modulus, n);
      assert StaleWin(modulus, n, s0, acts, s, t, s') && Broken(s');
    }
    if s0, acts, s, t, s' :| StaleWin(modulus, n, s0, acts, s, t, s') && Broken(s') {
      ModulusKept(s0, acts, s);
      BrokenWinIsOutsideWindow(modulus, n, s0, acts, s, t, s');
    }
  }

  const TAGS: nat := 0x1_0000_0000_0000_0000

  lemma FirstTurnIsWhole(modulus: nat)
    requires modulus > 0
    ensures TagOf(modulus, modulus) == 0 && forall n :: 0 < n < modulus ==> TagOf(n, modulus) != 0
  {
    TagAfter(0, modulus, modulus);
    forall n | 0 < n < modulus ensures TagOf(n, modulus) != 0 {
      TagAfter(0, n, modulus);
    }
  }

  /** With 64-bit tags the first pop that can break the stack is the one after exactly 2^64 changes. */
  lemma MachineTagBoundIsTight()
    returns (s0: State, acts: seq<Action>, s: State, t: nat, s': State)
    ensures StaleWin(TAGS, TAGS, s0, acts, s, t, s') && Broken(s')
    ensures forall n :: 0 < n < TAGS ==> TagOf(n, TAGS) != 0
  {
    FirstTurnIsWhole(TAGS);
    s0, acts, s, t, s' := AbaBreaksOutsideWindow(TAGS, TAGS);
  }

  /** A plain pointer is a single tag: recycling breaks the stack after any number of changes from two on. */
  lemma PlainPointerBreaks(n: nat)
    returns (s0: State, acts: seq<Action>, s: State, t: nat, s': State)
    requires n >= 2
    ensures StaleWin(1, n, s0, acts, s, t, s') && Broken(s')
  {
    s0, acts, s, t, s' := AbaBreaksOutsideWindow(1, n);
  }

  // ---------- progress ----------

  predicate OnHeap(s: State, p: nat) { p == NULL || p in s.heap }

  /** A snapshot that no change has passed since is the head as it is. */
  predicate Fresh(s: State, ptr: nat, tag: nat, seen: nat) {
    seen <= s.changes && (seen == s.changes ==> ptr == s.head && tag == s.tag)
  }

  predicate ThreadLive(s: State, me: Thread) {
    match me
    case Idle => true
    case PushNew(node, _) => node in s.heap
    case PushTry(node, _, ptr, tag, seen) => node in s.heap && OnHeap(s, ptr) && Fresh(s, ptr, tag, seen)
    case PopRead(ptr, tag, seen) => ptr in s.heap && Fresh(s, ptr, tag, seen)
    case PopTry(ptr, tag, next, seen) => ptr in s.heap && OnHeap(s, next) && Fresh(s, ptr, tag, seen)
    case PopTake(node, at) => node in s.heap
  }

  /** What holds on every schedule, windowed or not: whatever a thread touches is on the heap. */
  ghost predicate Live(s: State) {
    && s.modulus > 0 && |s.calls| == |s.threads| && OnHeap(s, s.head)
    && (forall n :: n in s.heap ==> OnHeap(s, s.heap[n].next))
    && (forall t :: 0 <= t < |s.threads| ==> ThreadLive(s, s.threads[t]))
  }

  lemma LiveHeap(s: State, a: Action, s': State)
    requires Live(s) && Next(s, a, s')
    ensures OnHeap(s', s'.head) && s.heap.Keys <= s'.heap.Keys
    ensures forall n :: n in s'.heap ==> OnHeap(s', s'.heap[n].next)
  {
    assert ThreadLive(s, s.threads[a.t]);
    forall n | n in s'.heap ensures OnHeap(s', s'.heap[n].next) {
      assert n in s.heap ==> OnHeap(s, s.heap[n].next);
    }
  }

  lemma LiveFrame(s: State, s': State, me: Thread)
    requires ThreadLive(s, me) && s.heap.Keys <= s'.heap.Keys
    requires s.changes <= s'.changes && (s'.changes == s.changes ==> s'.head == s.head && s'.tag == s.tag)
    ensures ThreadLive(s', me)
  {
  }

  lemma LiveSelf(s: State, a: Action, s': State)
    requires Live(s) && Next(s, a, s') && s.heap.Keys <= s'.heap.Keys
    ensures ThreadLive(s', s'.threads[a.t])
  {
    assert ThreadLive(s, s.threads[a.t]);
    if a.ReadNext? {
      assert OnHeap(s, s.heap[s.threads[a.t].ptr].next);
    }
  }

  lemma LiveStep(s: State, a: Action, s': State)
    requires Live(s) && Next(s, a, s')
    ensures Live(s') && |s'.threads| == |s.threads|
  {
    LiveHeap(s, a, s');
    forall t | 0 <= t < |s'.threads| ensures ThreadLive(s', s'.threads[t]) {
      if t == a.t {
        LiveSelf(s, a, s');
      } else {
        LiveFrame(s, s', s.threads[t]);
      }
    }
  }

  /** The next step of an operation under way. */
  function OwnStep(s: State, t: nat): Action
    requires t < |s.threads|
  {
    match s.threads[t]
    case PushNew(_, _) => LoadForPush(t)
    case PushTry(_, _, _, _, _) => CasPush(t, false)
    case PopRead(_, _, _) => ReadNext(t)
    case PopTry(_, _, _, _) => CasPop(t, false)
    case PopTake(_, _) => Take(t)
    case Idle => LoadForPop(t)
  }

  lemma {:induction false} RunIsLive(s0: State, acts: seq<Action>, s: State)
    requires Live(s0) && Run(Next, s0, acts, s)
    ensures Live(s) && |s.threads| == |s0.threads|
    decreases |acts|
  {
    if acts != [] {
      var m :| Next(s0, acts[0], m) && Run(Next, m, acts[1..], s);
      LiveStep(s0, acts[0], m);
      RunIsLive(m, acts[1..], s);
    }
  }

  /** No operation ever waits for another thread; any CAS may fail for no reason, any unused address be given out. */
  lemma OperationsNeverWait(s0: State, acts: seq<Action>, s: State, t: nat)
    requires Init(s0) && Run(Next, s0, acts, s) && t < |s.threads|
    ensures Enabled(s, OwnStep(s, t))
    ensures s.threads[t].PushTry? ==> forall fail :: Enabled(s, CasPush(t, fail))
    ensures s.threads[t].PopTry? ==> forall fail :: Enabled(s, CasPop(t, fail))
    ensures s.threads[t].Idle? ==> forall n: nat, v :: n != NULL && n !in s.used ==> Enabled(s, Alloc(t, n, v))
  {
    RunIsLive(s0, acts, s);
    assert ThreadLive(s, s.threads[t]);
  }

  /** The steps charged to one of n threads: to its win, two for each value the win makes stale, two if its own is. */
  function Charge(n: nat, changes: nat, me: Thread): nat {
    match me
    case Idle => 0
    case PushNew(_, _) => 2 * n + 2
    case PushTry(_, _, _, _, seen) => 2 * n + if seen == changes then 1 else 3
    case PopRead(_, _, seen) => 2 * n + if seen == changes then 3 else 5
    case PopTry(_, _, _, seen) => 2 * n + if seen == changes then 2 else 4
    case PopTake(_, _) => 1
  }

  function ChargeOf(n: nat, changes: nat): Thread -> nat { me => Charge(n, changes, me) }

  function Charges(s: State): nat { Sum(ChargeOf(|s.threads|, s.changes), s.threads) }

  /** What an action may add: the price of an operation where it starts, two steps where a CAS fails for no reason. */
  function Price(n: nat): Action -> nat {
    (a: Action) =>
      if a.Alloc? || a.LoadForPop? then 2 * n + 4
      else if (a.CasPush? || a.CasPop?) && a.fail then 2
      else 0
  }

  lemma QuietStepPays(s: State, a: Action, s': State)
    requires Live(s) && Next(s, a, s') && s'.changes == s.changes
    ensures Charges(s') + 1 <= Charges(s) + Price(|s.threads|)(a)
  {
    assert ThreadLive(s, s.threads[a.t]);
    assert s'.threads == s.threads[a.t := s'.threads[a.t]];
    SumUpdate(ChargeOf(|s.threads|, s.changes), s.threads, a.t, s'.threads[a.t]);
  }

  lemma StaleCharge(n: nat, changes: nat, threads: seq<Thread>)
    ensures Sum(ChargeOf(n, changes + 1), threads) <= Sum(ChargeOf(n, changes), threads) + 2 * |threads|
    decreases |threads|
  {
    if threads != [] {
      StaleCharge(n, changes, threads[1..]);
    }
  }

  /** A win can make every other thread's snapshot stale; its price covers that. */
  lemma WinPays(s: State, a: Action, s': State)
    requires Live(s) && Next(s, a, s') && s'.changes != s.changes
    ensures Charges(s') + 1 <= Charges(s)
  {
    var n := |s.threads|;
    assert s'.changes == s.changes + 1 && s'.threads == s.threads[a.t := s'.threads[a.t]];
    StaleCharge(n, s.changes, s'.threads);
    SumUpdate(ChargeOf(n, s.changes), s.threads, a.t, s'.threads[a.t]);
  }

  lemma StepPays(s: State, a: Action, s': State)
    requires Live(s) && Next(s, a, s')
    ensures Charges(s') + 1 <= Charges(s) + Price(|s.threads|)(a)
  {
    if s'.changes == s.changes {
      QuietStepPays(s, a, s');
    } else {
      WinPays(s, a, s');
    }
  }

  lemma RunPays(n: nat, s0: State, acts: seq<Action>, s: State)
    requires Live(s0) && Run(Next, s0, acts, s) && n == |s0.threads|
    ensures |acts| + Charges(s) <= Charges(s0) + Total(Price(n), acts)
  {
    var inv := (x: State) => Live(x) && |x.threads| == n;
    var measure := (x: State) => Charges(x) as int;
    forall x, a, y | inv(x) && Next(x, a, y) ensures inv(y) && measure(y) + 1 <= measure(x) + Price(n)(a) {
      LiveStep(x, a, y);
      StepPays(x, a, y);
    }
    RunLength(Next, inv, measure, Price(n), s0, acts, s);
  }

  /** The pushes and pops begun in a run, and its spurious CAS failures. */
  function Started(acts: seq<Action>): nat {
    if acts == [] then 0 else (if acts[0].Alloc? || acts[0].LoadForPop? then 1 else 0) + Started(acts[1..])
  }

  function Spurious(acts: seq<Action>): nat {
    if acts == [] then 0
    else (if (acts[0].CasPush? || acts[0].CasPop?) && acts[0].fail then 1 else 0) + Spurious(acts[1..])
  }

  lemma {:induction false} TotalPrice(n: nat, acts: seq<Action>)
    ensures Total(Price(n), acts) == (2 * n + 4) * Started(acts) + 2 * Spurious(acts)
  {
    if acts != [] {
      TotalPrice(n, acts[1..]);
    }
  }

  /**
    Lock freedom, for either stack and on every schedule: apart from spurious failures, n
    threads take no more than 2 n + 4 steps for every operation begun, since a snapshot
    goes stale only when another operation wins.
   */
  lemma OperationsAreBounded(s0: State, acts: seq<Action>, s: State)
    requires Init(s0) && Run(Next, s0, acts, s)
    ensures |acts| <= (2 * |s0.threads| + 4) * Started(acts) + 2 * Spurious(acts)
  {
    RunPays(|s0.threads|, s0, acts, s);
    TotalPrice(|s0.threads|, acts);
    SumZero(ChargeOf(|s0.threads|, s0.changes), s0.threads);
  }

  // ---------- the stack, in place ----------

  lemma WindowedPop(s: State, t: nat, fail: bool, s': State)
    requires Reached(s) && WindowedNext(s, CasPop(t, fail), s')
    ensures Reached(s')
    ensures Matches(s, s.threads[t]) && !fail ==> s.head in s.heap && s'.head == s.heap[s.head].next
  {
    ReachedStep(s, CasPop(t, fail), s');
    var nodes :| Inv(s, nodes);
    if Matches(s, s.threads[t]) && !fail {
      PopSnapshotIsCurrent(s, nodes, CasPop(t, fail));
    }
  }

  /** A pop finds no head exactly when the stack of the logged operations is empty. */
  lemma EmptyExactly(s: State)
    requires Reached(s)
    ensures s.head == NULL <==> Replay(s.log) == Legal([])
  {
    var nodes :| Inv(s, nodes);
    assert Refines(s, nodes);
  }

  /**
    The head, the heap and each thread's position, updated in place by one method
    a step.  The stack stays one as long as every winning pop is within the window.
   */
  class Stack {
    const modulus: nat
    const recycle: bool
    var heap: map<nat, Node>
    var head: nat
    var tag: nat
    var threads: seq<Thread>
    var used: set<nat>
    var returned: map<nat, int>
    var changes: nat   // history: what `seen` refers to
    var log: seq<Op>   // history: no branch depends on it
    ghost var who: seq<nat>
    ghost var calls: seq<seq<Call>>

    ghost function Snapshot(): State
      reads this
    {
      State(modulus, recycle, heap, head, tag, threads, used, changes, log, returned, who, calls)
    }

    ghost predicate Valid()
      reads this
    {
      Reached(Snapshot())
    }

    constructor (modulus: nat, recycle: bool, callers: nat)
      requires modulus > 0
      ensures Init(Snapshot()) && Valid()
      ensures this.modulus == modulus && this.recycle == recycle && |threads| == callers
    {
      this.modulus, this.recycle := modulus, recycle;
      heap, head, tag, used := map[], NULL, 0, {};
      threads := seq(callers, _ => Idle);
      log, changes, returned := [], 0, map[];
      who, calls := [], seq(callers, _ => []);
      new;
      InitInv(Snapshot());
    }

    /** new Node{v, nullptr}: any address that is not in use. */
    method Alloc(t: nat, node: nat, value: int)
      requires Valid() && Enabled(Snapshot(), Action.Alloc(t, node, value))
      modifies `heap, `used, `threads, `calls
      ensures Valid() && Snapshot() == Apply(old(Snapshot()), Action.Alloc(t, node, value))
      ensures heap == old(heap)[node := Node(value, NULL)] && used == old(used) + {node}
      ensures threads == old(threads)[t := PushNew(node, value)]
      ensures calls == old(calls)[t := old(calls)[t] + [PushCall(value)]]
    {
      ghost var before := Snapshot();
      heap := heap[node := Node(value, NULL)];
      used := used + {node};
      threads := threads[t := PushNew(node, value)];
      calls := calls[t := calls[t] + [PushCall(value)]];
      ReachedStep(before, Action.Alloc(t, node, value), Snapshot());
    }

    method LoadForPush(t: nat)
      requires Valid() && Enabled(Snapshot(), Action.LoadForPush(t))
      modifies `threads
      ensures Valid() && Snapshot() == Apply(old(Snapshot()), Action.LoadForPush(t))
      ensures var me := old(threads)[t]; threads == old(threads)[t := PushTry(me.node, me.value, head, tag, changes)]
    {
      ghost var before := Snapshot();
      threads := threads[t := PushTry(threads[t].node, threads[t].value, head, tag, changes)];
      ReachedStep(before, Action.LoadForPush(t), Snapshot());
    }

    /** The head changes, in one step with its tag. */
    method Swing(t: nat, to: nat, op: Op)
      requires modulus > 0
      modifies `head, `tag, `changes, `log, `who
      ensures Snapshot() == SetHead(old(Snapshot()), t, to, op)
      ensures head == to && changes == old(changes) + 1 && log == old(log) + [op] && who == old(who) + [t]
      ensures tag == if old(tag) + 1 == modulus then 0 else old(tag) + 1
    {
      head, tag, changes := to, NextTag(tag, modulus), changes + 1;
      log, who := log + [op], who + [t];
    }

    /** n->next = cur.ptr and compare_exchange_weak; a failure reloads the snapshot. */
    method CasPush(t: nat, fail: bool) returns (won: bool)
      requires Valid() && Enabled(Snapshot(), Action.CasPush(t, fail))
      modifies `heap, `head, `tag, `threads, `changes, `log, `who
      ensures Valid() && Snapshot() == Apply(old(Snapshot()), Action.CasPush(t, fail))
      ensures won ==> head == old(threads)[t].node && heap[head].next == old(head)
      ensures !won ==> head == old(head) && log == old(log)
      ensures won <==> old(head) == old(threads)[t].ptr && old(tag) == old(threads)[t].tag && !fail
      ensures var me := old(threads)[t]; heap == old(heap)[me.node := Node(old(heap)[me.node].value, me.ptr)]
      ensures won ==> log == old(log) + [Push(old(threads)[t].value)] && threads == old(threads)[t := Idle]
      ensures won ==> changes == old(changes) + 1 && who == old(who) + [t]
      ensures won ==> tag == if old(tag) + 1 == modulus then 0 else old(tag) + 1
      ensures var me := old(threads)[t];
        !won ==> threads == old(threads)[t := PushTry(me.node, me.value, head, tag, changes)]
      ensures !won ==> tag == old(tag) && changes == old(changes) && who == old(who)
    {
      ghost var before := Snapshot();
      var me := threads[t];
      heap := heap[me.node := heap[me.node].(next := me.ptr)];
      won := head == me.ptr && tag == me.tag && !fail;
      if won {
        Swing(t, me.node, Push(heap[me.node].value));
        threads := threads[t := Idle];
      } else {
        threads := threads[t := PushTry(me.node, me.value, head, tag, changes)];
      }
      ReachedStep(before, Action.CasPush(t, fail), Snapshot());
    }

    /** A pop looks at the head: it answers false at once on an empty stack, or keeps a snapshot. */
    method Look(t: nat) returns (empty: bool)
      requires t < |threads|
      modifies `threads, `log, `who
      ensures Snapshot() == LoadHead(old(Snapshot()), t) && empty == (old(head) == NULL)
      ensures empty ==> threads == old(threads)[t := Idle] && log == old(log) + [Empty] && who == old(who) + [t]
      ensures !empty ==> threads == old(threads)[t := PopRead(head, tag, changes)] && log == old(log) && who == old(who)
    {
      empty := head == NULL;
      if empty {
        threads := threads[t := Idle];
        log, who := log + [Empty], who + [t];
      } else {
        threads := threads[t := PopRead(head, tag, changes)];
      }
    }

    /** The load of pop. */
    method LoadForPop(t: nat) returns (empty: bool)
      requires Valid() && Enabled(Snapshot(), Action.LoadForPop(t))
      modifies `threads, `log, `who, `calls
      ensures Valid() && Snapshot() == Apply(old(Snapshot()), Action.LoadForPop(t))
      ensures empty <==> Replay(old(log)) == Legal([])
      ensures empty <==> threads[t] == Idle
      ensures calls == old(calls)[t := old(calls)[t] + [PopCall]]
      ensures empty ==> threads == old(threads)[t := Idle] && log == old(log) + [Empty] && who == old(who) + [t]
      ensures !empty ==> threads == old(threads)[t := PopRead(head, tag, changes)] && log == old(log) && who == old(who)
    {
      ghost var before := Snapshot();
      EmptyExactly(before);
      calls := calls[t := calls[t] + [PopCall]];
      empty := Look(t);
      ReachedStep(before, Action.LoadForPop(t), Snapshot());
    }

    method ReadNext(t: nat)
      requires Valid() && Enabled(Snapshot(), Action.ReadNext(t))
      modifies `threads
      ensures Valid() && Snapshot() == Apply(old(Snapshot()), Action.ReadNext(t))
      ensures var me := old(threads)[t];
        threads == old(threads)[t := PopTry(me.ptr, me.tag, heap[me.ptr].next, me.seen)]
    {
      ghost var before := Snapshot();
      var me := threads[t];
      threads := threads[t := PopTry(me.ptr, me.tag, heap[me.ptr].next, me.seen)];
      ReachedStep(before, Action.ReadNext(t), Snapshot());
    }

    /** compare_exchange_weak of pop; a failure reloads and may find the stack empty. */
    method CasPop(t: nat, fail: bool) returns (won: bool, empty: bool)
      requires Valid() && Enabled(Snapshot(), Action.CasPop(t, fail))
      modifies `head, `tag, `threads, `changes, `log, `who
      ensures Snapshot() == Apply(old(Snapshot()), Action.CasPop(t, fail))
      ensures InWindow(old(Snapshot()), Action.CasPop(t, fail)) ==>
                Valid() && (won ==> old(head) in heap && head == heap[old(head)].next)
      ensures !won ==> Valid() && head == old(head)
      ensures won <==> old(head) == old(threads)[t].ptr && old(tag) == old(threads)[t].tag && !fail
      ensures empty <==> !won && Replay(old(log)) == Legal([])
      ensures empty <==> threads[t] == Idle
      ensures var me := old(threads)[t]; won ==> head == me.next && log == old(log) + [Pop(heap[me.ptr].value)]
      ensures won ==> threads == old(threads)[t := PopTake(old(threads)[t].ptr, |old(log)|)] && who == old(who) + [t]
      ensures won ==> changes == old(changes) + 1 && tag == if old(tag) + 1 == modulus then 0 else old(tag) + 1
      ensures !won ==> tag == old(tag) && changes == old(changes)
      ensures empty ==> threads == old(threads)[t := Idle] && log == old(log) + [Empty] && who == old(who) + [t]
      ensures !won && !empty ==> threads == old(threads)[t := PopRead(head, tag, changes)]
      ensures !won && !empty ==> log == old(log) && who == old(who)
    {
      ghost var before := Snapshot();
      EmptyExactly(before);
      var me := threads[t];
      won := head == me.ptr && tag == me.tag && !fail;
      if won {
        threads := threads[t := PopTake(me.ptr, |log|)];
        Swing(t, me.next, Pop(heap[me.ptr].value));
        empty := false;
      } else {
        empty := Look(t);
      }
      assert Snapshot() == Apply(before, Action.CasPop(t, fail));
      if InWindow(before, Action.CasPop(t, fail)) {
        WindowedPop(before, t, fail, Snapshot());
      }
    }

    /** out = cur.ptr->value: the value that was on top when the pop took effect. */
    method Take(t: nat) returns (value: int)
      requires Valid() && Enabled(Snapshot(), Action.Take(t))
      modifies `returned, `threads, `used
      ensures Valid() && Snapshot() == Apply(old(Snapshot()), Action.Take(t))
      ensures var i := old(threads)[t].at; i < |log| == |who| && log[i] == Pop(value) && who[i] == t
      ensures value == heap[old(threads)[t].node].value && threads == old(threads)[t := Idle]
      ensures returned == old(returned)[old(threads)[t].at := value]
      ensures used == if recycle then old(used) - {old(threads)[t].node} else old(used)
    {
      ghost var before := Snapshot();
      ghost var nodes :| Inv(before, nodes);
      var me := threads[t];
      assert ThreadOk(before, me) && ThreadHistory(before, t);
      value := heap[me.node].value;
      returned := returned[me.at := value];
      threads := threads[t := Idle];
      if recycle {
        used := used - {me.node};
      }
      ReachedStep(before, Action.Take(t), Snapshot());
    }
  }
}
