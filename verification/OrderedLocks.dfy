/**
  Threads that each take two locks, do their work, and release both, over and over.

  Locks are numbered by address.  With `ordered` the lower one is taken first, as
  lock_ordered and take_both do; without it they are taken as written, as bad_a and
  bad_b do.  A lock is free or owned by one thread, and locking an owned lock blocks.
  The two unlocks may come in either order.
 */
module OrderedLocks {
  import opened Runs
  import opened Sums

  datatype Pair = Pair(x: nat, y: nat)

  datatype Pc =
    | WantFirst
    | WantSecond
    | HasBoth
    | HasOne(lock: nat)  // the one not yet released

  datatype State = State(
    ordered: bool, jobs: seq<seq<Pair>>,
    owner: map<nat, nat>, pcs: seq<Pc>, next: seq<nat>)

  datatype Action =
    | LockFirst(t: nat)
    | LockSecond(t: nat)
    | UnlockOne(t: nat, lock: nat)
    | UnlockOther(t: nat)

  // ---------- the steps ----------

  predicate Shape(s: State) {
    && |s.pcs| == |s.next| == |s.jobs|
    && forall t :: 0 <= t < |s.pcs| ==>
         s.next[t] <= |s.jobs[t]| && (s.pcs[t] != WantFirst ==> s.next[t] < |s.jobs[t]|)
  }

  /** The pair thread t is working on. */
  function Job(s: State, t: nat): Pair
    requires Shape(s) && t < |s.pcs| && s.next[t] < |s.jobs[t]|
  {
    s.jobs[t][s.next[t]]
  }

  function First(s: State, p: Pair): nat { if !s.ordered || p.x < p.y then p.x else p.y }

  function Second(s: State, p: Pair): nat { if !s.ordered || p.x < p.y then p.y else p.x }

  predicate Enabled(s: State, a: Action) {
    && Shape(s) && a.t < |s.pcs| && s.next[a.t] < |s.jobs[a.t]|
    && match a
       case LockFirst(t) => s.pcs[t] == WantFirst && First(s, Job(s, t)) !in s.owner
       case LockSecond(t) => s.pcs[t] == WantSecond && Second(s, Job(s, t)) !in s.owner
       case UnlockOne(t, lock) =>
         s.pcs[t] == HasBoth && (lock == Job(s, t).x || lock == Job(s, t).y)
       case UnlockOther(t) => s.pcs[t].HasOne?
  }

  function Apply(s: State, a: Action): State
    requires Enabled(s, a)
  {
    var p := Job(s, a.t);
    match a
    case LockFirst(t) => s.(owner := s.owner[First(s, p) := t], pcs := s.pcs[t := WantSecond])
    case LockSecond(t) => s.(owner := s.owner[Second(s, p) := t], pcs := s.pcs[t := HasBoth])
    case UnlockOne(t, lock) =>
      s.(owner := s.owner - {lock}, pcs := s.pcs[t := HasOne(if lock == p.x then p.y else p.x)])
    case UnlockOther(t) =>
      s.(owner := s.owner - {s.pcs[t].lock}, pcs := s.pcs[t := WantFirst], next := s.next[t := s.next[t] + 1])
  }

  ghost predicate Next(s: State, a: Action, t: State) {
    Enabled(s, a) && t == Apply(s, a)
  }

  ghost predicate Init(s: State) {
    && Shape(s) && s.owner == map[]
    && forall t :: 0 <= t < |s.pcs| ==> s.pcs[t] == WantFirst && s.next[t] == 0
  }

  ghost predicate Finished(s: State) {
    Shape(s) && forall t :: 0 <= t < |s.pcs| ==> s.next[t] == |s.jobs[t]|
  }

  // ---------- the invariant ----------

  /** The locks thread t holds. */
  ghost function Held(s: State, t: nat): set<nat>
    requires Shape(s) && t < |s.pcs|
  {
    match s.pcs[t]
    case WantFirst => {}
    case WantSecond => {First(s, Job(s, t))}
    case HasBoth => {Job(s, t).x, Job(s, t).y}
    case HasOne(lock) => {lock}
  }

  ghost predicate ThreadOk(s: State, t: nat)
    requires Shape(s) && t < |s.pcs|
  {
    && (forall lock :: lock in Held(s, t) <==> lock in s.owner && s.owner[lock] == t)
    && (s.pcs[t].HasBoth? || s.pcs[t].HasOne? ==> Job(s, t).x != Job(s, t).y)
    && (s.pcs[t].HasOne? ==> s.pcs[t].lock == Job(s, t).x || s.pcs[t].lock == Job(s, t).y)
    && (forall j :: 0 <= j < s.next[t] ==> s.jobs[t][j].x != s.jobs[t][j].y)
  }

  ghost predicate Inv(s: State) {
    && Shape(s)
    && (forall t :: 0 <= t < |s.pcs| ==> ThreadOk(s, t))
    && (forall lock :: lock in s.owner ==> s.owner[lock] < |s.pcs|)
  }

  lemma InitInv(s: State)
    requires Init(s)
    ensures Inv(s)
  {
  }

  /** What never changes. */
  ghost predicate SameProgram(s0: State, s: State) {
    s.ordered == s0.ordered && s.jobs == s0.jobs && |s.pcs| == |s0.pcs|
  }

  lemma StepShape(s: State, a: Action, s': State)
    requires Next(s, a, s')
    ensures Shape(s') && SameProgram(s, s')
  {
  }

  lemma StepThread(s: State, a: Action, s': State, t: nat)
    requires Inv(s) && Next(s, a, s') && Shape(s') && t < |s.pcs|
    ensures ThreadOk(s', t)
  {
    assert ThreadOk(s, t) && ThreadOk(s, a.t);
  }

  lemma StepInv(s: State, a: Action, s': State)
    requires Inv(s) && Next(s, a, s')
    ensures Inv(s') && SameProgram(s, s')
  {
    StepShape(s, a, s');
    forall t | 0 <= t < |s'.pcs| ensures ThreadOk(s', t) {
      StepThread(s, a, s', t);
    }
  }

  lemma Reachable(s0: State, acts: seq<Action>, s: State)
    requires Init(s0) && Run(Next, s0, acts, s)
    ensures Inv(s) && SameProgram(s0, s)
  {
    InitInv(s0);
    var inv := (x: State) => Inv(x) && SameProgram(s0, x);
    forall x, a, y | inv(x) && Next(x, a, y) ensures inv(y) { StepInv(x, a, y); }
    RunInvariant(Next, inv, s0, acts, s);
  }

  /** Two threads inside their work at once have no lock in common. */
  lemma MutualExclusion(s0: State, acts: seq<Action>, s: State, t: nat, u: nat)
    requires Init(s0) && Run(Next, s0, acts, s)
    requires t < |s.pcs| && u < |s.pcs| && t != u && s.pcs[t] == s.pcs[u] == HasBoth
    ensures Shape(s) && {Job(s, t).x, Job(s, t).y} !! {Job(s, u).x, Job(s, u).y}
  {
    Reachable(s0, acts, s);
    assert ThreadOk(s, t) && ThreadOk(s, u);
    assert Held(s, t) !! Held(s, u);
  }

  // ---------- deadlock freedom ----------

  predicate AllDistinct(jobs: seq<seq<Pair>>) {
    forall t, j :: 0 <= t < |jobs| && 0 <= j < |jobs[t]| ==> jobs[t][j].x != jobs[t][j].y
  }

  /**
    Following who waits for whom from a thread that holds a lock: every wait is for
    a higher lock than the last, so the chain ends at a thread that can go on.
   */
  lemma {:induction false} Chase(s: State, t: nat) returns (a: Action)
    requires Inv(s) && s.ordered && AllDistinct(s.jobs) && t < |s.pcs| && s.pcs[t] != WantFirst
    ensures Enabled(s, a)
    decreases if s.pcs[t] == WantSecond then set l | l in s.owner && l >= Second(s, Job(s, t)) else {}
  {
    assert ThreadOk(s, t);
    var p := Job(s, t);
    match s.pcs[t] {
      case HasBoth => a := UnlockOne(t, p.x);
      case HasOne(_) => a := UnlockOther(t);
      case WantSecond =>
        var want := Second(s, p);
        if want !in s.owner {
          a := LockSecond(t);
        } else {
          var u := s.owner[want];
          assert ThreadOk(s, u);
          assert want in Held(s, u);
          if s.pcs[u] == WantSecond {
            assert First(s, Job(s, u)) == want && Second(s, Job(s, u)) > want;
            assert want in set l | l in s.owner && l >= want;
          }
          a := Chase(s, u);
        }
    }
  }

  lemma RestMeansFinished(s: State)
    requires Inv(s) && s.ordered && AllDistinct(s.jobs) && AtRest(Next, s)
    ensures Finished(s)
  {
    forall t | 0 <= t < |s.pcs| ensures s.next[t] == |s.jobs[t]| {
      if s.next[t] < |s.jobs[t]| {
        var a;
        if s.pcs[t] == WantFirst {
          var want := First(s, Job(s, t));
          if want !in s.owner {
            a := LockFirst(t);
          } else {
            assert ThreadOk(s, s.owner[want]);
            a := Chase(s, s.owner[want]);
          }
        } else {
          a := Chase(s, t);
        }
        assert Next(s, a, Apply(s, a));
      }
    }
  }

  // ---------- termination ----------

  function Phase(pc: Pc): nat {
    match pc
    case WantFirst => 0
    case WantSecond => 1
    case HasBoth => 2
    case HasOne(_) => 3
  }

  /** Lock operations thread t has still to do, four a pair. */
  function Todo(s: State, t: nat): nat
    requires Shape(s) && t < |s.pcs|
  {
    4 * (|s.jobs[t]| - s.next[t]) - Phase(s.pcs[t])
  }

  function Todos(s: State): seq<nat> {
    if Shape(s) then seq(|s.pcs|, t requires 0 <= t < |s.pcs| => Todo(s, t)) else []
  }

  function Measure(s: State): nat { Sum(Identity, Todos(s)) }

  lemma StepPays(s: State, a: Action, s': State)
    requires Next(s, a, s')
    ensures Measure(s') + 1 == Measure(s)
  {
    StepShape(s, a, s');
    assert Todos(s') == Todos(s)[a.t := Todo(s', a.t)];
    SumUpdate(Identity, Todos(s), a.t, Todo(s', a.t));
  }

  /** Every step counts: a run that finishes has done exactly its lock operations, whatever the schedule. */
  lemma {:induction false} RunLengthExact(s0: State, acts: seq<Action>, s: State)
    requires Run(Next, s0, acts, s)
    ensures |acts| + Measure(s) == Measure(s0)
    decreases |acts|
  {
    if acts != [] {
      var m :| Next(s0, acts[0], m) && Run(Next, m, acts[1..], s);
      StepPays(s0, acts[0], m);
      RunLengthExact(m, acts[1..], s);
    }
  }

  lemma FinishedMeasure(s: State)
    requires Inv(s) && Finished(s)
    ensures Measure(s) == 0
  {
    SumZero(Identity, Todos(s));
  }

  lemma SomeRunRests(s0: State) returns (acts: seq<Action>, s: State)
    requires Init(s0)
    ensures Run(Next, s0, acts, s) && AtRest(Next, s)
  {
    InitInv(s0);
    forall x, a, y | Inv(x) && Next(x, a, y) ensures Inv(y) && Measure(y) < Measure(x) {
      StepInv(x, a, y);
      StepPays(x, a, y);
    }
    acts, s := RunToRest(Next, Inv, Measure, s0);
  }

  // ---------- when a program can get stuck ----------

  /** Thread t at its j-th pair. */
  datatype Claim = Claim(t: nat, j: nat)

  predicate IsClaim(s: State, c: Claim) { c.t < |s.jobs| && c.j < |s.jobs[c.t]| }

  function FirstOf(s: State, c: Claim): nat
    requires IsClaim(s, c)
  {
    First(s, s.jobs[c.t][c.j])
  }

  function SecondOf(s: State, c: Claim): nat
    requires IsClaim(s, c)
  {
    Second(s, s.jobs[c.t][c.j])
  }

  /** The next place round a ring of n. */
  function Around(i: nat, n: nat): nat { if i + 1 == n then 0 else i + 1 }

  /**
    A circular wait in the program's text: one pair each of different threads, with different
    first locks, in a ring in which each one's second lock is the next one's first.  A ring
    of one is a pair that names the same lock twice.
   */
  ghost predicate Cycle(s: State, cs: seq<Claim>) {
    && cs != [] && (forall i :: 0 <= i < |cs| ==> IsClaim(s, cs[i]))
    && (forall i, k :: 0 <= i < k < |cs| ==> cs[i].t != cs[k].t && FirstOf(s, cs[i]) != FirstOf(s, cs[k]))
    && (forall i :: 0 <= i < |cs| ==> SecondOf(s, cs[i]) == FirstOf(s, cs[Around(i, |cs|)]))
  }

  /** Thread t has its first lock and waits for one that another such thread has as its first. */
  ghost predicate Blocked(s: State, t: nat) {
    && Shape(s) && t < |s.pcs| && s.pcs[t] == WantSecond && Second(s, Job(s, t)) in s.owner
    && var u := s.owner[Second(s, Job(s, t))];
       u < |s.pcs| && s.pcs[u] == WantSecond && First(s, Job(s, u)) == Second(s, Job(s, t))
  }

  ghost function WaitsFor(s: State, t: nat): nat
    requires Blocked(s, t)
  {
    s.owner[Second(s, Job(s, t))]
  }

  lemma RestMeansBlocked(s: State, t: nat)
    requires Inv(s) && AtRest(Next, s) && t < |s.pcs| && s.pcs[t] != WantFirst
    ensures Blocked(s, t)
  {
    AtWorkMeansWaiting(s, t);
    var want := Second(s, Job(s, t));
    if want !in s.owner {
      assert Next(s, LockSecond(t), Apply(s, LockSecond(t)));
      assert false;
    }
    var u := s.owner[want];
    OwnerAtWork(s, want);
    AtWorkMeansWaiting(s, u);
    assert ThreadOk(s, u) && want in Held(s, u);
  }

  lemma AtWorkMeansWaiting(s: State, t: nat)
    requires Inv(s) && AtRest(Next, s) && t < |s.pcs| && s.pcs[t] != WantFirst
    ensures s.pcs[t] == WantSecond
  {
    if s.pcs[t] == HasBoth {
      var a := UnlockOne(t, Job(s, t).x);
      assert Next(s, a, Apply(s, a));
    } else if s.pcs[t].HasOne? {
      assert Next(s, UnlockOther(t), Apply(s, UnlockOther(t)));
    }
  }

  /** Different threads, each waiting for the next. */
  ghost predicate Chain(s: State, p: seq<nat>) {
    && p != [] && (forall i :: 0 <= i < |p| ==> Blocked(s, p[i]))
    && (forall i, k :: 0 <= i < k < |p| ==> p[i] != p[k])
    && (forall i :: 0 <= i < |p| - 1 ==> p[i + 1] == WaitsFor(s, p[i]))
  }

  function Claims(s: State, p: seq<nat>): seq<Claim>
    requires forall i :: 0 <= i < |p| ==> p[i] < |s.next|
  {
    seq(|p|, i requires 0 <= i < |p| => Claim(p[i], s.next[p[i]]))
  }

  lemma ChainCloses(s: State, p: seq<nat>)
    requires Inv(s) && Chain(s, p) && WaitsFor(s, p[|p| - 1]) == p[0]
    ensures Cycle(s, Claims(s, p))
  {
    var cs := Claims(s, p);
    forall i, k | 0 <= i < k < |cs| ensures FirstOf(s, cs[i]) != FirstOf(s, cs[k]) {
      assert ThreadOk(s, p[i]) && ThreadOk(s, p[k]);
      assert FirstOf(s, cs[i]) in Held(s, p[i]) && FirstOf(s, cs[k]) in Held(s, p[k]);
    }
    forall i | 0 <= i < |cs| ensures SecondOf(s, cs[i]) == FirstOf(s, cs[Around(i, |cs|)]) {
      assert Blocked(s, p[i]) && p[Around(i, |p|)] == WaitsFor(s, p[i]);
    }
  }

  ghost function Outside(s: State, p: seq<nat>): set<nat> { set t: nat | t < |s.pcs| && t !in p }

  /** There are finitely many threads, so the chain of waits comes back on itself. */
  lemma {:induction false} FindCycle(s: State, p: seq<nat>) returns (cs: seq<Claim>)
    requires Inv(s) && AtRest(Next, s) && Chain(s, p)
    ensures Cycle(s, cs)
    decreases Outside(s, p)
  {
    var u := WaitsFor(s, p[|p| - 1]);
    RestMeansBlocked(s, u);
    if u in p {
      var i :| 0 <= i < |p| && p[i] == u;
      ChainCloses(s, p[i..]);
      cs := Claims(s, p[i..]);
    } else {
      assert u in Outside(s, p) && u !in Outside(s, p + [u]) && Outside(s, p + [u]) <= Outside(s, p);
      cs := FindCycle(s, p + [u]);
    }
  }

  lemma StuckMeansCycle(s: State) returns (cs: seq<Claim>)
    requires Inv(s) && AtRest(Next, s) && !Finished(s)
    ensures Cycle(s, cs)
  {
    var t :| 0 <= t < |s.pcs| && s.next[t] != |s.jobs[t]|;
    var u := t;
    if s.pcs[t] == WantFirst {
      var want := First(s, Job(s, t));
      if want !in s.owner {
        assert Next(s, LockFirst(t), Apply(s, LockFirst(t)));
        assert false;
      }
      u := s.owner[want];
      OwnerAtWork(s, want);
    }
    RestMeansBlocked(s, u);
    cs := FindCycle(s, [u]);
  }

  /** With nobody else about, thread t does one pair. */
  lemma DoPair(s: State, t: nat) returns (acts: seq<Action>)
    requires Shape(s) && s.owner == map[] && AllDistinct(s.jobs)
    requires t < |s.pcs| && s.pcs[t] == WantFirst && s.next[t] < |s.jobs[t]|
    ensures Run(Next, s, acts, s.(next := s.next[t := s.next[t] + 1]))
  {
    var p := Job(s, t);
    var s1 := Apply(s, LockFirst(t));
    var s2 := Apply(s1, LockSecond(t));
    var s3 := Apply(s2, UnlockOne(t, p.x));
    var s4 := Apply(s3, UnlockOther(t));
    Single(Next, s3, UnlockOther(t), s4);
    Prepend(Next, s2, UnlockOne(t, p.x), s3, [UnlockOther(t)], s4);
    Prepend(Next, s1, LockSecond(t), s2, [UnlockOne(t, p.x)] + [UnlockOther(t)], s4);
    acts := [LockFirst(t)] + ([LockSecond(t)] + ([UnlockOne(t, p.x)] + [UnlockOther(t)]));
    Prepend(Next, s, LockFirst(t), s1, [LockSecond(t)] + ([UnlockOne(t, p.x)] + [UnlockOther(t)]), s4);
    assert s4.owner == map[];
    assert s4.pcs == s.pcs;
  }

  lemma {:induction false} DoPairs(s: State, t: nat, j: nat) returns (acts: seq<Action>)
    requires Shape(s) && s.owner == map[] && AllDistinct(s.jobs)
    requires t < |s.pcs| && s.pcs[t] == WantFirst && s.next[t] <= j <= |s.jobs[t]|
    ensures Run(Next, s, acts, s.(next := s.next[t := j]))
    decreases j - s.next[t]
  {
    if s.next[t] == j {
      acts := [];
      assert s.next[t := j] == s.next;
    } else {
      var m := s.(next := s.next[t := s.next[t] + 1]);
      var first := DoPair(s, t);
      var rest := DoPairs(m, t, j);
      acts := first + rest;
      assert m.next[t := j] == s.next[t := j];
      Concat(Next, s, first, m, rest, s.(next := s.next[t := j]));
    }
  }

  /** Nobody holds anything, and the first k threads of the ring are at their pairs in it. */
  ghost predicate Positioned(s0: State, cs: seq<Claim>, k: nat, s: State) {
    && Shape(s) && s == s0.(next := s.next) && |s.next| == |s0.next| && k <= |cs|
    && (forall i :: 0 <= i < |cs| ==> IsClaim(s0, cs[i]) && s.next[cs[i].t] == if i < k then cs[i].j else 0)
  }

  lemma PositionOne(s0: State, cs: seq<Claim>, k: nat, m: State, s: State)
    requires Cycle(s0, cs) && k < |cs| && Positioned(s0, cs, k, m)
    requires s == m.(next := m.next[cs[k].t := cs[k].j])
    ensures Positioned(s0, cs, k + 1, s)
  {
    forall i | 0 <= i < |cs| ensures s.next[cs[i].t] == if i < k + 1 then cs[i].j else 0 {
      assert i != k ==> cs[i].t != cs[k].t;
    }
  }

  lemma {:induction false} Position(s0: State, cs: seq<Claim>, k: nat) returns (acts: seq<Action>, s: State)
    requires Init(s0) && Cycle(s0, cs) && AllDistinct(s0.jobs) && k <= |cs|
    ensures Run(Next, s0, acts, s) && Positioned(s0, cs, k, s)
  {
    if k == 0 {
      acts, s := [], s0;
    } else {
      var m, before, last;
      before, m := Position(s0, cs, k - 1);
      last := DoPairs(m, cs[k - 1].t, cs[k - 1].j);
      s := m.(next := m.next[cs[k - 1].t := cs[k - 1].j]);
      PositionOne(s0, cs, k - 1, m, s);
      acts := before + last;
      Concat(Next, s0, before, m, last, s);
    }
  }

  /** The first k threads of the ring have their first locks, and nobody has any other. */
  ghost predicate Taken(p: State, cs: seq<Claim>, k: nat, s: State) {
    && Shape(s) && s == p.(owner := s.owner, pcs := s.pcs) && |s.pcs| == |p.pcs| && k <= |cs|
    && (forall i :: 0 <= i < |cs| ==> IsClaim(p, cs[i]) && s.next[cs[i].t] == cs[i].j)
    && (forall i :: 0 <= i < |cs| ==> s.pcs[cs[i].t] == if i < k then WantSecond else WantFirst)
    && (forall i :: k <= i < |cs| ==> FirstOf(p, cs[i]) !in s.owner)
  }

  lemma TakeOne(p: State, cs: seq<Claim>, k: nat, m: State) returns (s: State)
    requires Cycle(p, cs) && k < |cs| && Taken(p, cs, k, m)
    ensures Next(m, LockFirst(cs[k].t), s) && Taken(p, cs, k + 1, s)
  {
    assert First(m, Job(m, cs[k].t)) == FirstOf(p, cs[k]);
    s := Apply(m, LockFirst(cs[k].t));
    forall i | 0 <= i < |cs| ensures s.pcs[cs[i].t] == if i < k + 1 then WantSecond else WantFirst {
      assert i != k ==> cs[i].t != cs[k].t;
    }
    forall i | k + 1 <= i < |cs| ensures FirstOf(p, cs[i]) !in s.owner {
      assert FirstOf(p, cs[i]) != FirstOf(p, cs[k]);
    }
  }

  lemma {:induction false} TakeFirsts(p: State, cs: seq<Claim>, k: nat) returns (acts: seq<Action>, s: State)
    requires Cycle(p, cs) && Taken(p, cs, 0, p) && k <= |cs|
    ensures Run(Next, p, acts, s) && Taken(p, cs, k, s)
  {
    if k == 0 {
      acts, s := [], p;
    } else {
      var m, before;
      before, m := TakeFirsts(p, cs, k - 1);
      var a := LockFirst(cs[k - 1].t);
      s := TakeOne(p, cs, k - 1, m);
      Single(Next, m, a, s);
      acts := before + [a];
      Concat(Next, p, before, m, [a], s);
    }
  }

  /** The whole ring waits. */
  ghost predicate RingWaits(s: State, cs: seq<Claim>) {
    && Inv(s) && Cycle(s, cs)
    && forall i :: 0 <= i < |cs| ==> s.pcs[cs[i].t] == WantSecond && s.next[cs[i].t] == cs[i].j
  }

  lemma SameCycle(s: State, s0: State, cs: seq<Claim>)
    requires Cycle(s, cs) && (SameProgram(s0, s) || SameProgram(s, s0))
    ensures Cycle(s0, cs)
  {
    assert forall i :: 0 <= i < |cs| ==>
      FirstOf(s, cs[i]) == FirstOf(s0, cs[i]) && SecondOf(s, cs[i]) == SecondOf(s0, cs[i]);
  }

  lemma RingBlocks(s: State, cs: seq<Claim>, i: nat)
    requires RingWaits(s, cs) && i < |cs|
    ensures forall a :: Enabled(s, a) ==> a.t != cs[i].t
  {
    var next := cs[Around(i, |cs|)];
    assert ThreadOk(s, next.t);
    assert FirstOf(s, next) in Held(s, next.t);
    assert Second(s, Job(s, cs[i].t)) == SecondOf(s, cs[i]);
  }

  /** Once it waits it waits for ever. */
  lemma RingWaitsOn(s: State, cs: seq<Claim>, a: Action, s': State)
    requires RingWaits(s, cs) && Next(s, a, s')
    ensures RingWaits(s', cs)
  {
    StepInv(s, a, s');
    SameCycle(s, s', cs);
    forall i | 0 <= i < |cs| ensures a.t != cs[i].t {
      RingBlocks(s, cs, i);
    }
  }

  lemma RingStaysStuck(s: State, cs: seq<Claim>) returns (acts: seq<Action>, t: State)
    requires RingWaits(s, cs)
    ensures Run(Next, s, acts, t) && AtRest(Next, t) && !Finished(t)
  {
    var inv := (x: State) => RingWaits(x, cs);
    forall x, a, y | inv(x) && Next(x, a, y) ensures inv(y) && Measure(y) < Measure(x) {
      RingWaitsOn(x, cs, a, y);
      StepPays(x, a, y);
    }
    acts, t := RunToRest(Next, inv, Measure, s);
    assert IsClaim(t, cs[0]) && t.next[cs[0].t] == cs[0].j;
  }

  lemma RingForms(s0: State, cs: seq<Claim>) returns (acts: seq<Action>, s: State)
    requires Init(s0) && Cycle(s0, cs) && AllDistinct(s0.jobs)
    ensures Run(Next, s0, acts, s) && RingWaits(s, cs)
  {
    var a1, s1 := Position(s0, cs, |cs|);
    SameCycle(s0, s1, cs);
    var a2;
    a2, s := TakeFirsts(s1, cs, |cs|);
    Concat(Next, s0, a1, s1, a2, s);
    acts := a1 + a2;
    Reachable(s0, acts, s);
    SameCycle(s0, s, cs);
  }

  lemma CycleGetsStuck(s0: State, cs: seq<Claim>) returns (acts: seq<Action>, s: State)
    requires Init(s0) && Cycle(s0, cs) && AllDistinct(s0.jobs)
    ensures Run(Next, s0, acts, s) && AtRest(Next, s) && !Finished(s)
  {
    var form, m := RingForms(s0, cs);
    var rest;
    rest, s := RingStaysStuck(m, cs);
    acts := form + rest;
    Concat(Next, s0, form, m, rest, s);
  }

  lemma SelfPairIsCycle(s: State, t: nat, j: nat)
    requires IsClaim(s, Claim(t, j)) && s.jobs[t][j].x == s.jobs[t][j].y
    ensures Cycle(s, [Claim(t, j)])
  {
  }

  /** Some schedule gets stuck. */
  ghost predicate CanGetStuck(s0: State) {
    exists acts, s :: Run(Next, s0, acts, s) && AtRest(Next, s) && !Finished(s)
  }

  lemma SelfPairGetsStuck(s0: State)
    requires Init(s0) && !AllDistinct(s0.jobs)
    ensures CanGetStuck(s0)
  {
    var acts, s := SomeRunRests(s0);
    Reachable(s0, acts, s);
    if Finished(s) {
      FinishedMeansDistinct(s);
      assert false;
    }
    assert Run(Next, s0, acts, s) && AtRest(Next, s) && !Finished(s);
  }

  // ---------- the main results ----------

  /**
    In whatever order the locks are taken, and for any threads and programs, some schedule
    gets stuck exactly if the program's text has a circular wait.
   */
  lemma StuckExactlyOnCircularWait(s0: State)
    requires Init(s0)
    ensures CanGetStuck(s0) <==> exists cs :: Cycle(s0, cs)
  {
    if acts, s :| Run(Next, s0, acts, s) && AtRest(Next, s) && !Finished(s) {
      Reachable(s0, acts, s);
      var cs := StuckMeansCycle(s);
      SameCycle(s, s0, cs);
    }
    if cs :| Cycle(s0, cs) {
      if AllDistinct(s0.jobs) {
        var acts, s := CycleGetsStuck(s0, cs);
        assert Run(Next, s0, acts, s) && AtRest(Next, s) && !Finished(s);
      } else {
        SelfPairGetsStuck(s0);
      }
    }
  }

  /** Round a ring of ordered pairs the first locks only climb. */
  lemma {:induction false} Climb(s: State, cs: seq<Claim>, i: nat)
    requires Cycle(s, cs) && s.ordered && AllDistinct(s.jobs) && i < |cs|
    ensures FirstOf(s, cs[0]) <= FirstOf(s, cs[i]) < SecondOf(s, cs[i])
  {
    assert s.jobs[cs[i].t][cs[i].j].x != s.jobs[cs[i].t][cs[i].j].y;
    if i > 0 {
      Climb(s, cs, i - 1);
      assert Around(i - 1, |cs|) == i;
    }
  }

  /** Taken in order, the locks leave one kind of circular wait: a pair that names the same lock twice. */
  lemma OrderedCircularWaits(s: State)
    requires s.ordered
    ensures AllDistinct(s.jobs) <==> !exists cs :: Cycle(s, cs)
  {
    if AllDistinct(s.jobs) {
      forall cs ensures !Cycle(s, cs) {
        if Cycle(s, cs) {
          Climb(s, cs, |cs| - 1);
          assert false;
        }
      }
    } else {
      var t, j :| 0 <= t < |s.jobs| && 0 <= j < |s.jobs[t]| && s.jobs[t][j].x == s.jobs[t][j].y;
      SelfPairIsCycle(s, t, j);
    }
  }

  /**
    With the locks taken in order, for any number of threads and locks, no schedule
    gets stuck exactly if no thread ever asks for the same lock twice at once.
   */
  lemma OrderedNeverStuckExactly(s0: State)
    requires Init(s0) && s0.ordered
    ensures AllDistinct(s0.jobs) <==>
      forall acts, s :: Run(Next, s0, acts, s) && AtRest(Next, s) ==> Finished(s)
  {
    OrderedCircularWaits(s0);
    StuckExactlyOnCircularWait(s0);
    if AllDistinct(s0.jobs) {
      forall acts, s | Run(Next, s0, acts, s) && AtRest(Next, s) ensures Finished(s) {
        assert !CanGetStuck(s0);
      }
    } else {
      assert CanGetStuck(s0);
      var acts, s :| Run(Next, s0, acts, s) && AtRest(Next, s) && !Finished(s);
      assert Run(Next, s0, acts, s) && AtRest(Next, s);
    }
  }

  lemma FinishedMeansDistinct(s: State)
    requires Inv(s) && Finished(s)
    ensures AllDistinct(s.jobs)
  {
    forall t, j | 0 <= t < |s.jobs| && 0 <= j < |s.jobs[t]| ensures s.jobs[t][j].x != s.jobs[t][j].y {
      assert ThreadOk(s, t);
    }
  }

  lemma OwnerAtWork(s: State, lock: nat)
    requires Inv(s) && lock in s.owner
    ensures s.pcs[s.owner[lock]] != WantFirst
  {
    assert ThreadOk(s, s.owner[lock]);
  }

  /** Any schedule that cannot go on has finished every pair, in exactly four steps a pair. */
  lemma OrderedRunsFinish(s0: State, acts: seq<Action>, s: State)
    requires Init(s0) && s0.ordered && AllDistinct(s0.jobs)
    requires Run(Next, s0, acts, s) && AtRest(Next, s)
    ensures Finished(s) && s.owner == map[] && |acts| == Measure(s0)
  {
    Reachable(s0, acts, s);
    RestMeansFinished(s);
    FinishedMeasure(s);
    RunLengthExact(s0, acts, s);
    if lock :| lock in s.owner {
      OwnerAtWork(s, lock);
      assert false;
    }
  }

  // ---------- dining philosophers ----------

  /** n philosophers in a ring, each eating `meals` times between fork i and fork i + 1. */
  function Ring(ordered: bool, n: nat, meals: nat): State {
    State(ordered,
          seq(n, i requires 0 <= i < n => seq(meals, _ => Pair(i, if i + 1 == n then 0 else i + 1))),
          map[], seq(n, _ => WantFirst), seq(n, _ => 0))
  }

  lemma RingDistinct(ordered: bool, n: nat, meals: nat)
    ensures AllDistinct(Ring(ordered, n, meals).jobs) <==> n != 1 || meals == 0
  {
    if n == 1 && meals > 0 {
      assert Ring(ordered, n, meals).jobs[0][0] == Pair(0, 0);
    }
  }

  /** The ordered ring never gets stuck exactly if no philosopher sits alone with one fork. */
  lemma OrderedRingNeverStuckExactly(n: nat, meals: nat)
    ensures (n != 1 || meals == 0) <==>
      forall acts, s :: Run(Next, Ring(true, n, meals), acts, s) && AtRest(Next, s) ==> Finished(s)
  {
    RingDistinct(true, n, meals);
    OrderedNeverStuckExactly(Ring(true, n, meals));
  }

  /** Philosophers below k own their left forks. */
  function LeftOwners(k: nat): (owner: map<nat, nat>)
    ensures forall i: nat :: i in owner <==> i < k
    ensures forall i: nat :: i in owner ==> owner[i] == i
  {
    if k == 0 then map[] else LeftOwners(k - 1)[k - 1 := k - 1]
  }

  /** The first k philosophers of the unordered ring hold their left forks. */
  function LeftForks(n: nat, meals: nat, k: nat): State
  {
    Ring(false, n, meals).(
      owner := LeftOwners(k),
      pcs := seq(n, i requires 0 <= i < n => if i < k then WantSecond else WantFirst))
  }

  lemma TakeLeftFork(n: nat, meals: nat, k: nat)
    requires k < n && meals > 0
    ensures Next(LeftForks(n, meals, k), LockFirst(k), LeftForks(n, meals, k + 1))
  {
    var s, s' := LeftForks(n, meals, k), LeftForks(n, meals, k + 1);
    assert s'.pcs == s.pcs[k := WantSecond];
  }

  lemma TakeLeftForks(n: nat, meals: nat) returns (acts: seq<Action>)
    requires meals > 0
    ensures Run(Next, LeftForks(n, meals, 0), acts, LeftForks(n, meals, n))
  {
    forall k: nat | k < n ensures Next(LeftForks(n, meals, k), LockFirst(k), LeftForks(n, meals, k + 1)) {
      TakeLeftFork(n, meals, k);
    }
    acts := Ladder(Next, k => LeftForks(n, meals, k), k => LockFirst(k), n);
  }

  lemma NoLeftForks(n: nat, meals: nat)
    ensures LeftForks(n, meals, 0) == Ring(false, n, meals)
  {
    assert LeftForks(n, meals, 0).pcs == Ring(false, n, meals).pcs;
  }

  /**
    Taken as written, the ring has for every n a schedule that ends with everyone
    holding one fork and waiting for the next; n = 2 is the circular wait of the
    two threads that lock m1, m2 and m2, m1.
   */
  lemma UnorderedRingGetsStuck(n: nat, meals: nat) returns (acts: seq<Action>, s: State)
    requires n > 0 && meals > 0
    ensures Init(Ring(false, n, meals)) && Run(Next, Ring(false, n, meals), acts, s)
    ensures AtRest(Next, s) && |s.next| == |s.pcs| == n
    ensures forall t :: 0 <= t < n ==> s.next[t] == 0 && s.pcs[t] == WantSecond
  {
    acts := TakeLeftForks(n, meals);
    NoLeftForks(n, meals);
    s := LeftForks(n, meals, n);
    EveryoneWaits(n, meals);
  }

  lemma EveryoneWaits(n: nat, meals: nat)
    requires n > 0 && meals > 0
    ensures AtRest(Next, LeftForks(n, meals, n))
  {
    var s := LeftForks(n, meals, n);
    forall a: Action | a.t < n ensures !Enabled(s, a) {
      assert s.pcs[a.t] == WantSecond && s.jobs[a.t][0] == Pair(a.t, if a.t + 1 == n then 0 else a.t + 1);
      assert s.jobs[a.t][0].y in s.owner;
    }
  }

  // ---------- the locks, in place ----------

  /** The owners and each thread's position, updated in place by one method a lock operation. */
  class Locks {
    const ordered: bool
    const jobs: seq<seq<Pair>>
    var owner: map<nat, nat>
    var pcs: seq<Pc>
    var next: seq<nat>

    ghost function Snapshot(): State
      reads this
    {
      State(ordered, jobs, owner, pcs, next)
    }

    ghost predicate Valid()
      reads this
    {
      Inv(Snapshot())
    }

    constructor (ordered: bool, jobs: seq<seq<Pair>>)
      ensures Init(Snapshot()) && Valid() && this.ordered == ordered && this.jobs == jobs
    {
      this.ordered, this.jobs := ordered, jobs;
      owner, pcs, next := map[], seq(|jobs|, _ => WantFirst), seq(|jobs|, _ => 0);
      new;
      InitInv(Snapshot());
    }

    /** The first lock call: of the lower address if the order is kept, else of the one written first. */
    method LockFirst(t: nat)
      requires Valid() && Enabled(Snapshot(), Action.LockFirst(t))
      modifies `owner, `pcs
      ensures Valid() && Snapshot() == Apply(old(Snapshot()), Action.LockFirst(t))
      ensures ordered ==> var p := jobs[t][next[t]]; if p.x <= p.y then p.x in owner else p.y in owner
      ensures var p := jobs[t][next[t]];
        owner == old(owner)[if ordered && p.y <= p.x then p.y else p.x := t]
      ensures pcs == old(pcs)[t := WantSecond]
    {
      ghost var before := Snapshot();
      var p := jobs[t][next[t]];
      if !ordered || p.x < p.y {
        owner := owner[p.x := t];
      } else {
        owner := owner[p.y := t];
      }
      pcs := pcs[t := WantSecond];
      StepInv(before, Action.LockFirst(t), Snapshot());
    }

    method LockSecond(t: nat)
      requires Valid() && Enabled(Snapshot(), Action.LockSecond(t))
      modifies `owner, `pcs
      ensures Valid() && Snapshot() == Apply(old(Snapshot()), Action.LockSecond(t))
      ensures var p := jobs[t][next[t]]; p.x != p.y && p.x in owner && p.y in owner && owner[p.x] == owner[p.y] == t
      ensures var p := jobs[t][next[t]];
        owner == old(owner)[if ordered && p.y <= p.x then p.x else p.y := t]
      ensures pcs == old(pcs)[t := HasBoth]
    {
      ghost var before := Snapshot();
      var p := jobs[t][next[t]];
      if !ordered || p.x < p.y {
        owner := owner[p.y := t];
      } else {
        owner := owner[p.x := t];
      }
      pcs := pcs[t := HasBoth];
      StepInv(before, Action.LockSecond(t), Snapshot());
      assert ThreadOk(Snapshot(), t);
      assert p.x in Held(Snapshot(), t) && p.y in Held(Snapshot(), t);
    }

    /** The first unlock, of either lock. */
    method UnlockOne(t: nat, lock: nat)
      requires Valid() && Enabled(Snapshot(), Action.UnlockOne(t, lock))
      modifies `owner, `pcs
      ensures Valid() && Snapshot() == Apply(old(Snapshot()), Action.UnlockOne(t, lock))
      ensures owner == old(owner) - {lock}
      ensures var p := jobs[t][next[t]]; pcs == old(pcs)[t := HasOne(if lock == p.x then p.y else p.x)]
    {
      ghost var before := Snapshot();
      var p := jobs[t][next[t]];
      owner := owner - {lock};
      pcs := pcs[t := HasOne(if lock == p.x then p.y else p.x)];
      StepInv(before, Action.UnlockOne(t, lock), Snapshot());
    }

    method UnlockOther(t: nat)
      requires Valid() && Enabled(Snapshot(), Action.UnlockOther(t))
      modifies `owner, `pcs, `next
      ensures Valid() && Snapshot() == Apply(old(Snapshot()), Action.UnlockOther(t))
      ensures forall lock :: lock in owner ==> owner[lock] != t
      ensures owner == old(owner) - {old(pcs)[t].lock}
      ensures pcs == old(pcs)[t := WantFirst] && next == old(next)[t := old(next)[t] + 1]
    {
      ghost var before := Snapshot();
      owner := owner - {pcs[t].lock};
      pcs, next := pcs[t := WantFirst], next[t := next[t] + 1];
      StepInv(before, Action.UnlockOther(t), Snapshot());
      assert ThreadOk(Snapshot(), t);
    }
  }
}
