/**
  The thread pool: clients submit jobs to one queue, workers sleep on one condition
  variable while it is empty, and the destructor stops, wakes and joins them.

  `submit` notifies after releasing the lock, so between the two it owes the workers
  a notification.  The destructor may begin at any time; a later submit throws.
 */
module ThreadPool {
  import opened Runs
  import opened Sums
  import opened Waiting

  datatype Task = Task(client: nat, index: nat)

  datatype WorkerPc = Ready | Asleep | Woken | Running(task: Task) | Gone

  datatype ClientPc = Calling | Notifying

  datatype DestructorPc = NotBegun | NotifyingAll | Joining(next: nat) | Destroyed

  /** `jobs` lists the argument of every submit a client will make; a job computes `work` of its argument. */
  datatype State = State(
    work: int -> int, jobs: seq<seq<int>>,
    tasks: seq<Task>, stop: bool,
    workers: seq<WorkerPc>, clients: seq<ClientPc>, next: seq<nat>, destructor: DestructorPc,
    futures: map<Task, int>,
    accepted: seq<Task>, taken: seq<Task>, executed: seq<Task>, rejected: seq<Task>, holder: map<Task, nat>)

  datatype Action =
    | Submit(c: nat)
    | NotifyOne(c: nat, wake: nat)
    | Fetch(w: nat)
    | Finish(w: nat)
    | BeginDestroy
    | NotifyAll
    | Join
    | Spurious(w: nat)

  // ---------- the steps ----------

  predicate Shape(s: State) {
    && |s.next| == |s.clients| == |s.jobs| && |s.workers| > 0
    && forall c :: 0 <= c < |s.next| ==> s.next[c] <= |s.jobs[c]|
  }

  predicate Enabled(s: State, a: Action) {
    && Shape(s)
    && match a
       case Submit(c) => c < |s.clients| && s.clients[c] == Calling && s.next[c] < |s.jobs[c]|
       case NotifyOne(c, w) => c < |s.clients| && s.clients[c] == Notifying && CanWake(s.workers, Asleep, w)
       case Fetch(w) => w < |s.workers| && (s.workers[w] == Ready || s.workers[w] == Woken)
       case Finish(w) =>
         && w < |s.workers| && s.workers[w].Running?
         && var t := s.workers[w].task; t.client < |s.jobs| && t.index < |s.jobs[t.client]|
       case BeginDestroy => s.destructor == NotBegun
       case NotifyAll => s.destructor == NotifyingAll
       case Join =>
         && s.destructor.Joining?
         && (s.destructor.next < |s.workers| ==> s.workers[s.destructor.next] == Gone)
       case Spurious(w) => w < |s.workers| && s.workers[w] == Asleep
  }

  function ApplySubmit(s: State, c: nat): State
    requires Enabled(s, Submit(c))
  {
    var task := Task(c, s.next[c]);
    var s1 := s.(next := s.next[c := s.next[c] + 1]);
    if s.stop then s1.(rejected := s.rejected + [task])
    else s1.(tasks := s.tasks + [task], accepted := s.accepted + [task], clients := s.clients[c := Notifying])
  }

  /** The critical section of worker_loop. */
  function ApplyFetch(s: State, w: nat): State
    requires Enabled(s, Fetch(w))
  {
    if s.tasks == [] then
      s.(workers := s.workers[w := if s.stop then Gone else Asleep])
    else
      s.(tasks := s.tasks[1..], taken := s.taken + [s.tasks[0]],
         workers := s.workers[w := Running(s.tasks[0])], holder := s.holder[s.tasks[0] := w])
  }

  function Apply(s: State, a: Action): State
    requires Enabled(s, a)
  {
    match a
    case Submit(c) => ApplySubmit(s, c)
    case NotifyOne(c, w) =>
      s.(clients := s.clients[c := Calling], workers := WakeOne(s.workers, Asleep, Woken, w))
    case Fetch(w) => ApplyFetch(s, w)
    case Finish(w) =>
      var t := s.workers[w].task;
      s.(workers := s.workers[w := Ready], futures := s.futures[t := s.work(s.jobs[t.client][t.index])],
         executed := s.executed + [t])
    case BeginDestroy => s.(stop := true, destructor := NotifyingAll)
    case NotifyAll => s.(workers := WakeAll(s.workers, Asleep, Woken), destructor := Joining(0))
    case Join =>
      if s.destructor.next < |s.workers| then s.(destructor := Joining(s.destructor.next + 1))
      else s.(destructor := Destroyed)
    case Spurious(w) => s.(workers := s.workers[w := Woken])
  }

  ghost predicate Next(s: State, a: Action, t: State) {
    Enabled(s, a) && t == Apply(s, a)
  }

  ghost predicate Proper(s: State, a: Action, t: State) {
    Next(s, a, t) && !a.Spurious?
  }

  ghost predicate Init(s: State) {
    && Shape(s) && !s.stop && s.destructor == NotBegun
    && s.tasks == s.accepted == s.taken == s.executed == s.rejected == []
    && s.futures == map[] && s.holder == map[]
    && (forall w :: 0 <= w < |s.workers| ==> s.workers[w] == Ready)
    && (forall c :: 0 <= c < |s.clients| ==> s.clients[c] == Calling && s.next[c] == 0)
  }

  ghost predicate Finished(s: State) {
    && Shape(s) && s.destructor == Destroyed
    && (forall w :: 0 <= w < |s.workers| ==> s.workers[w] == Gone)
    && (forall c :: 0 <= c < |s.clients| ==> s.clients[c] == Calling && s.next[c] == |s.jobs[c]|)
  }

  // ---------- the invariant ----------

  ghost predicate Distinct(log: seq<Task>) {
    forall i, j :: 0 <= i < j < |log| ==> log[i] != log[j]
  }

  /** Accepted tasks are dequeued in order; each submit makes one task. */
  ghost predicate Queue(s: State)
    requires Shape(s)
  {
    && s.accepted == s.taken + s.tasks && Distinct(s.accepted)
    && (forall t :: t in s.accepted ==> t.client < |s.jobs| && t.index < s.next[t.client])
    && (forall c, i :: 0 <= c < |s.jobs| && 0 <= i < s.next[c] ==> Task(c, i) in s.accepted || Task(c, i) in s.rejected)
    && (!s.stop ==> s.rejected == [])
  }

  ghost predicate RunningOk(s: State, w: nat, t: Task) {
    t in s.taken && t !in s.futures && t in s.holder && s.holder[t] == w
  }

  /** A dequeued task is in one worker's hands or done, and done once with its own result. */
  ghost predicate Execution(s: State)
    requires Shape(s)
  {
    && Distinct(s.executed) && (forall t :: t in s.executed <==> t in s.futures)
    && (forall t :: t in s.futures ==>
          && t in s.taken && t.client < |s.jobs| && t.index < |s.jobs[t.client]|
          && s.futures[t] == s.work(s.jobs[t.client][t.index]))
    && (forall w :: 0 <= w < |s.workers| && s.workers[w].Running? ==> RunningOk(s, w, s.workers[w].task))
    && (forall t :: t in s.taken && t !in s.futures ==>
          t in s.holder && s.holder[t] < |s.workers| && s.workers[s.holder[t]] == Running(t))
  }

  ghost predicate NoLostWakeup(s: State) {
    && (!s.stop && Count(s.workers, Asleep) > 0 ==>
          |s.tasks| <= Count(s.workers, Woken) + Count(s.clients, Notifying))
    && (s.stop && Count(s.workers, Asleep) > 0 ==> s.destructor == NotifyingAll)
    && (Count(s.workers, Gone) > 0 ==> s.stop && s.tasks == [])
  }

  ghost predicate Destruction(s: State) {
    && (s.stop <==> !s.destructor.NotBegun?)
    && (s.destructor.Joining? ==>
          s.destructor.next <= |s.workers| && forall w :: 0 <= w < s.destructor.next ==> s.workers[w] == Gone)
    && (s.destructor.Destroyed? ==> forall w :: 0 <= w < |s.workers| ==> s.workers[w] == Gone)
  }

  ghost predicate Inv(s: State) {
    Shape(s) && Queue(s) && Execution(s) && NoLostWakeup(s) && Destruction(s)
  }

  lemma InitInv(s: State)
    requires Init(s)
    ensures Inv(s)
  {
    CountMember(s.workers, Asleep);
    CountMember(s.workers, Gone);
  }

  /** What never changes. */
  ghost predicate SameProgram(s0: State, s: State) {
    s.work == s0.work && s.jobs == s0.jobs && |s.workers| == |s0.workers| && |s.clients| == |s0.clients|
  }

  lemma ShapeStep(s: State, a: Action, t: State)
    requires Next(s, a, t)
    ensures Shape(t) && SameProgram(s, t)
  {
  }

  lemma QueueSubmit(s: State, c: nat, t: State)
    requires Shape(s) && Queue(s) && Next(s, Submit(c), t)
    ensures Shape(t) && Queue(t)
  {
    var task := Task(c, s.next[c]);
    assert task !in s.accepted;
    forall d, i | 0 <= d < |t.jobs| && 0 <= i < t.next[d]
      ensures Task(d, i) in t.accepted || Task(d, i) in t.rejected
    {
      if d == c && i == s.next[c] {
        assert if s.stop then t.rejected[|s.rejected|] == task else t.accepted[|s.accepted|] == task;
      } else {
        assert Task(d, i) in s.accepted || Task(d, i) in s.rejected;
      }
    }
  }

  lemma QueueStep(s: State, a: Action, t: State)
    requires Shape(s) && Queue(s) && Next(s, a, t)
    ensures Shape(t) && Queue(t)
  {
    ShapeStep(s, a, t);
    if a.Submit? {
      QueueSubmit(s, a.c, t);
    }
  }

  lemma ExecutionFrame(s: State, t: State)
    requires Shape(s) && Execution(s) && Shape(t) && SameProgram(s, t)
    requires t.taken == s.taken && t.futures == s.futures && t.executed == s.executed && t.holder == s.holder
    requires forall w :: 0 <= w < |s.workers| ==>
               t.workers[w] == s.workers[w] || (!s.workers[w].Running? && !t.workers[w].Running?)
    ensures Execution(t)
  {
    forall w | 0 <= w < |t.workers| && t.workers[w].Running? ensures RunningOk(t, w, t.workers[w].task) {
      assert RunningOk(s, w, s.workers[w].task);
    }
  }

  /** The steps that neither start nor finish a task. */
  lemma ExecutionKept(s: State, a: Action, t: State)
    requires Next(s, a, t) && Execution(s) && !a.Fetch? && !a.Finish?
    ensures Shape(t) && Execution(t)
  {
    ShapeStep(s, a, t);
    ExecutionFrame(s, t);
  }

  lemma HeadNotTaken(s: State)
    requires Shape(s) && Queue(s) && s.tasks != []
    ensures s.tasks[0] !in s.taken
  {
    assert s.accepted[|s.taken|] == s.tasks[0];
    assert forall i :: 0 <= i < |s.taken| ==> s.accepted[i] == s.taken[i];
  }

  lemma ExecutionFetch(s: State, w: nat, t: State)
    requires Next(s, Fetch(w), t) && Queue(s) && Execution(s)
    ensures Shape(t) && Execution(t)
  {
    ShapeStep(s, Fetch(w), t);
    if s.tasks == [] {
      ExecutionFrame(s, t);
    } else {
      HeadNotTaken(s);
      forall v | 0 <= v < |t.workers| && t.workers[v].Running? ensures RunningOk(t, v, t.workers[v].task) {
        assert v != w ==> RunningOk(s, v, s.workers[v].task);
      }
    }
  }

  lemma ExecutionFinish(s: State, w: nat, t: State)
    requires Next(s, Finish(w), t) && Execution(s)
    ensures Shape(t) && Execution(t)
  {
    ShapeStep(s, Finish(w), t);
    assert RunningOk(s, w, s.workers[w].task);
    assert t.executed[|s.executed|] == s.workers[w].task;
    forall x ensures x in t.executed <==> x in t.futures {
      assert x in t.executed <==> x in s.executed || x == s.workers[w].task;
    }
    forall v | 0 <= v < |t.workers| && t.workers[v].Running? ensures RunningOk(t, v, t.workers[v].task) {
      assert RunningOk(s, v, s.workers[v].task);
    }
  }

  lemma ExecutionStep(s: State, a: Action, t: State)
    requires Next(s, a, t) && Queue(s) && Execution(s)
    ensures Shape(t) && Execution(t)
  {
    match a
    case Fetch(w) => ExecutionFetch(s, w, t);
    case Finish(w) => ExecutionFinish(s, w, t);
    case _ => ExecutionKept(s, a, t);
  }

  lemma WakeupSubmit(s: State, c: nat, t: State)
    requires NoLostWakeup(s) && Next(s, Submit(c), t)
    ensures NoLostWakeup(t)
  {
    Move(s.clients, c, Notifying);
  }

  lemma WakeupNotifyOne(s: State, c: nat, w: nat, t: State)
    requires NoLostWakeup(s) && Next(s, NotifyOne(c, w), t)
    ensures NoLostWakeup(t)
  {
    Move(s.clients, c, Calling);
    WakeOneCount(s.workers, Asleep, Woken, w);
  }

  lemma WakeupWorker(s: State, a: Action, t: State)
    requires a.Fetch? || a.Finish? || a.Spurious?
    requires NoLostWakeup(s) && Next(s, a, t)
    ensures NoLostWakeup(t)
  {
    Move(s.workers, a.w, t.workers[a.w]);
  }

  lemma WakeupDestroy(s: State, a: Action, t: State)
    requires a.BeginDestroy? || a.NotifyAll? || a.Join?
    requires NoLostWakeup(s) && Destruction(s) && Next(s, a, t)
    ensures NoLostWakeup(t)
  {
    if a.NotifyAll? {
      WakeAllCount(s.workers, Asleep, Woken);
    }
  }

  lemma WakeupStep(s: State, a: Action, t: State)
    requires NoLostWakeup(s) && Destruction(s) && Next(s, a, t)
    ensures NoLostWakeup(t)
  {
    match a
    case Submit(c) => WakeupSubmit(s, c, t);
    case NotifyOne(c, w) => WakeupNotifyOne(s, c, w, t);
    case Fetch(w) => WakeupWorker(s, a, t);
    case Finish(w) => WakeupWorker(s, a, t);
    case Spurious(w) => WakeupWorker(s, a, t);
    case _ => WakeupDestroy(s, a, t);
  }

  lemma DestructionStep(s: State, a: Action, t: State)
    requires Destruction(s) && Next(s, a, t)
    ensures Destruction(t)
  {
  }

  lemma StepInv(s: State, a: Action, t: State)
    requires Inv(s) && Next(s, a, t)
    ensures Inv(t) && SameProgram(s, t)
  {
    ShapeStep(s, a, t);
    QueueStep(s, a, t);
    ExecutionStep(s, a, t);
    WakeupStep(s, a, t);
    DestructionStep(s, a, t);
  }

  lemma Reachable(s0: State, acts: seq<Action>, s: State)
    requires Init(s0) && Run(Next, s0, acts, s)
    ensures Inv(s) && SameProgram(s0, s)
  {
    InitInv(s0);
    var inv := (x: State) => Inv(x) && SameProgram(s0, x);
    forall x, a, y | inv(x) && Next(x, a, y) ensures inv(y) { StepInv(x, a, y); }
    RunInvariant(Next, inv, s0, acts, s);
  }

  // ---------- termination ----------

  function Weight(pc: WorkerPc): nat {
    match pc
    case Gone => 0
    case Asleep => 1
    case Ready => 2
    case Woken => 2
    case Running(_) => 3
  }

  function Owes(pc: ClientPc): nat { if pc == Notifying then 2 else 0 }

  function DestructorWeight(n: nat, d: DestructorPc): nat {
    match d
    case NotBegun => 2 * n + 3
    case NotifyingAll => 2 * n + 2
    case Joining(k) => if k <= n then n + 1 - k else 0
    case Destroyed => 0
  }

  /** How many submits there are to make in all, and how many are still to come. */
  function Jobs(s: State): nat { Sum(Identity, Lengths(s.jobs)) }

  function ToSubmit(s: State): nat {
    if Sum(Identity, s.next) <= Jobs(s) then Jobs(s) - Sum(Identity, s.next) else 0
  }

  function Measure(s: State): nat {
    5 * ToSubmit(s) + 2 * |s.tasks| + Sum(Owes, s.clients) + Sum(Weight, s.workers)
    + DestructorWeight(|s.workers|, s.destructor)
  }

  function Credit(a: Action): nat { if a.Spurious? then 2 else 0 }

  lemma PaidSubmit(s: State, c: nat, t: State)
    requires Next(s, Submit(c), t)
    ensures Measure(t) < Measure(s)
  {
    SumUpdate(Owes, s.clients, c, Notifying);
    SumUpdate(Identity, s.next, c, s.next[c] + 1);
    ShapeStep(s, Submit(c), t);
    SumOrder(Identity, t.next, Lengths(s.jobs));
  }

  lemma PaidNotify(s: State, c: nat, w: nat, t: State)
    requires Next(s, NotifyOne(c, w), t)
    ensures Measure(t) < Measure(s)
  {
    SumUpdate(Owes, s.clients, c, Calling);
    if w < |s.workers| && s.workers[w] == Asleep {
      SumUpdate(Weight, s.workers, w, Woken);
    }
  }

  lemma PaidWorker(s: State, a: Action, t: State)
    requires a.Fetch? || a.Finish? || a.Spurious?
    requires Next(s, a, t)
    ensures Measure(t) + 1 <= Measure(s) + Credit(a)
  {
    SumUpdate(Weight, s.workers, a.w, t.workers[a.w]);
  }

  lemma PaidDestroy(s: State, a: Action, t: State)
    requires a.BeginDestroy? || a.NotifyAll? || a.Join?
    requires Destruction(s) && Next(s, a, t)
    ensures Measure(t) < Measure(s)
  {
    if a.NotifyAll? {
      SumGrowth(Weight, s.workers, t.workers, 1);
    }
  }

  lemma PaidStep(s: State, a: Action, t: State)
    requires Inv(s) && Next(s, a, t)
    ensures Measure(t) + 1 <= Measure(s) + Credit(a)
  {
    match a
    case Submit(c) => PaidSubmit(s, c, t);
    case NotifyOne(c, w) => PaidNotify(s, c, w, t);
    case Fetch(w) => PaidWorker(s, a, t);
    case Finish(w) => PaidWorker(s, a, t);
    case Spurious(w) => PaidWorker(s, a, t);
    case _ => PaidDestroy(s, a, t);
  }

  lemma MeasureAtStart(s: State)
    requires Init(s)
    ensures Measure(s) == 5 * Jobs(s) + 4 * |s.workers| + 3
  {
    SumZero(Identity, s.next);
    SumZero(Owes, s.clients);
    SumConstant(Weight, s.workers, 2);
  }

  /** Every run is finite, however the clients, the workers and the destructor interleave. */
  lemma RunsAreFinite(s0: State, acts: seq<Action>, s: State)
    requires Init(s0) && Run(Next, s0, acts, s)
    ensures |acts| <= 5 * Jobs(s0) + 4 * |s0.workers| + 3 + Total(Credit, acts)
  {
    InitInv(s0);
    var measure := (x: State) => Measure(x) as int;
    forall x, a, y | Inv(x) && Next(x, a, y)
      ensures Inv(y) && measure(y) + 1 <= measure(x) + Credit(a)
    {
      StepInv(x, a, y);
      PaidStep(x, a, y);
    }
    RunLength(Next, Inv, measure, Credit, s0, acts, s);
    MeasureAtStart(s0);
  }

  // ---------- shutdown ----------

  lemma CanMove(s: State, a: Action)
    requires Enabled(s, a) && !a.Spurious?
    ensures !AtRest(Proper, s)
  {
    assert Proper(s, a, Apply(s, a));
  }

  lemma WorkersRest(s: State, w: nat)
    requires Inv(s) && AtRest(Proper, s) && w < |s.workers|
    ensures s.workers[w] == Asleep || s.workers[w] == Gone
  {
    if s.workers[w].Running? {
      assert RunningOk(s, w, s.workers[w].task);
      var t := s.workers[w].task;
      assert t in s.accepted;
      CanMove(s, Finish(w));
      assert false;
    } else if s.workers[w] == Ready || s.workers[w] == Woken {
      CanMove(s, Fetch(w));
      assert false;
    }
  }

  /** No state before the end has every thread waiting. */
  lemma RestMeansFinished(s: State)
    requires Inv(s) && AtRest(Proper, s)
    ensures Finished(s)
  {
    if s.destructor == NotBegun {
      CanMove(s, BeginDestroy);
      assert false;
    }
    if s.destructor == NotifyingAll {
      CanMove(s, NotifyAll);
      assert false;
    }
    CountMember(s.workers, Asleep);
    forall w | 0 <= w < |s.workers| ensures s.workers[w] == Gone {
      WorkersRest(s, w);
    }
    if s.destructor.Joining? {
      CanMove(s, Join);
      assert false;
    }
    forall c | 0 <= c < |s.clients| ensures s.clients[c] == Calling && s.next[c] == |s.jobs[c]| {
      if s.clients[c] == Notifying {
        var w := SomeChoice(s.workers, Asleep);
        CanMove(s, NotifyOne(c, w));
      } else if s.next[c] < |s.jobs[c]| {
        CanMove(s, Submit(c));
      }
    }
  }

  /** Tasks are dequeued in the order in which they were accepted, and each at most once. */
  lemma AcceptanceOrder(s0: State, acts: seq<Action>, s: State)
    requires Init(s0) && Run(Next, s0, acts, s)
    ensures s.taken <= s.accepted && Distinct(s.accepted) && Distinct(s.executed)
    ensures forall t :: t in s.executed ==> t in s.taken
    ensures s.rejected != [] ==> s.stop
  {
    Reachable(s0, acts, s);
  }

  /** No sleeper misses a task: before the stop every queued task has a woken worker or an owed notification. */
  lemma SleepersAlways(s0: State, acts: seq<Action>, s: State)
    requires Init(s0) && Run(Next, s0, acts, s) && Asleep in s.workers
    ensures !s.stop ==> |s.tasks| <= Count(s.workers, Woken) + Count(s.clients, Notifying)
    ensures s.stop ==> s.destructor == NotifyingAll
  {
    Reachable(s0, acts, s);
    CountMember(s.workers, Asleep);
  }

  /**
    However the pool is shut down, if it runs until nothing more can happen then
    every join has returned, every submit was either accepted or threw, and every
    accepted task has run exactly once and left its own result in its future.
   */
  lemma ShutdownCompletes(s0: State, acts: seq<Action>, s: State)
    requires Init(s0) && Run(Next, s0, acts, s) && AtRest(Proper, s)
    ensures Finished(s) && s.taken == s.accepted && Distinct(s.executed)
    ensures forall t :: t in s.executed <==> t in s.accepted
    ensures forall t :: t in s.accepted ==>
              && t.client < |s0.jobs| && t.index < |s0.jobs[t.client]| && t in s.futures
              && s.futures[t] == s0.work(s0.jobs[t.client][t.index])
    ensures forall c, i :: 0 <= c < |s0.jobs| && 0 <= i < |s0.jobs[c]| ==>
              Task(c, i) in s.accepted || Task(c, i) in s.rejected
  {
    Reachable(s0, acts, s);
    RestMeansFinished(s);
    assert s.workers[0] == Gone;
    CountMember(s.workers, Gone);
    assert s.taken == s.accepted;
  }

  // ---------- what the scheduler may do ----------

  /** Any sleeping worker may be the one that a notification wakes, and may wake for nothing. */
  lemma AnySleeperMayWake(s: State, c: nat, w: nat)
    requires Shape(s) && c < |s.clients| && w < |s.workers| && s.workers[w] == Asleep
    ensures Enabled(s, Spurious(w)) && (s.clients[c] == Notifying ==> Enabled(s, NotifyOne(c, w)))
  {
  }

  // ---------- the pool, in place ----------

  /** The queue, the stop flag, the futures and each thread's position, updated in place by one method a step. */
  class Pool {
    const work: int -> int
    const jobs: seq<seq<int>>
    var tasks: seq<Task>
    var stop: bool
    var workers: seq<WorkerPc>
    var clients: seq<ClientPc>
    var next: seq<nat>
    var destructor: DestructorPc
    var futures: map<Task, int>
    ghost var accepted: seq<Task>
    ghost var taken: seq<Task>
    ghost var executed: seq<Task>
    ghost var rejected: seq<Task>
    ghost var holder: map<Task, nat>

    ghost function Snapshot(): State
      reads this
    {
      State(work, jobs, tasks, stop, workers, clients, next, destructor, futures,
            accepted, taken, executed, rejected, holder)
    }

    ghost predicate Valid()
      reads this
    {
      Inv(Snapshot())
    }

    /** A pool asked for no worker gets two. */
    constructor (n: nat, work: int -> int, jobs: seq<seq<int>>)
      ensures Init(Snapshot()) && Valid() && this.work == work && this.jobs == jobs
      ensures |workers| == if n == 0 then 2 else n
    {
      this.work, this.jobs := work, jobs;
      workers := seq(if n == 0 then 2 else n, _ => Ready);
      clients, next := seq(|jobs|, _ => Calling), seq(|jobs|, _ => 0);
      tasks, stop, destructor, futures := [], false, NotBegun, map[];
      accepted, taken, executed, rejected, holder := [], [], [], [], map[];
      new;
      InitInv(Snapshot());
    }

    /** The critical section of submit; a stopped pool throws. */
    method Submit(c: nat) returns (threw: bool)
      requires Valid() && Enabled(Snapshot(), Action.Submit(c))
      modifies `tasks, `next, `clients, `accepted, `rejected
      ensures Valid() && Snapshot() == Apply(old(Snapshot()), Action.Submit(c))
      ensures threw <==> stop
      ensures tasks == if threw then old(tasks) else old(tasks) + [Task(c, old(next)[c])]
      ensures next == old(next)[c := old(next)[c] + 1]
      ensures threw ==> clients == old(clients) && accepted == old(accepted)
      ensures threw ==> rejected == old(rejected) + [Task(c, old(next)[c])]
      ensures !threw ==> clients == old(clients)[c := Notifying] && rejected == old(rejected)
      ensures !threw ==> accepted == old(accepted) + [Task(c, old(next)[c])]
    {
      ghost var before := Snapshot();
      var task := Task(c, next[c]);
      next := next[c := next[c] + 1];
      threw := stop;
      if threw {
        rejected := rejected + [task];
      } else {
        tasks := tasks + [task];
        accepted := accepted + [task];
        clients := clients[c := Notifying];
      }
      StepInv(before, Action.Submit(c), Snapshot());
    }

    /** The critical section of worker_loop. */
    method Fetch(w: nat) returns (blocked: bool)
      requires Valid() && Enabled(Snapshot(), Action.Fetch(w))
      modifies `tasks, `workers, `taken, `holder
      ensures Valid() && Snapshot() == Apply(old(Snapshot()), Action.Fetch(w))
      ensures blocked <==> old(tasks) == [] && !stop
      ensures old(tasks) != [] ==> old(tasks) == [workers[w].task] + tasks
      ensures old(tasks) == [] ==> workers == old(workers)[w := if stop then Gone else Asleep] && tasks == []
      ensures old(tasks) == [] ==> taken == old(taken) && holder == old(holder)
      ensures old(tasks) != [] ==> workers == old(workers)[w := Running(old(tasks)[0])]
      ensures old(tasks) != [] ==> taken == old(taken) + [old(tasks)[0]] && holder == old(holder)[old(tasks)[0] := w]
    {
      ghost var before := Snapshot();
      blocked := !(stop || tasks != []);
      if blocked {
        workers := workers[w := Asleep];
      } else if stop && tasks == [] {
        workers := workers[w := Gone];
      } else {
        var job := tasks[0];
        tasks := tasks[1..];
        workers := workers[w := Running(job)];
        taken := taken + [job];
        holder := holder[job := w];
      }
      StepInv(before, Action.Fetch(w), Snapshot());
    }

    /** job(): the packaged task fulfils its future, for the first time. */
    method Finish(w: nat)
      requires Valid() && Enabled(Snapshot(), Action.Finish(w))
      modifies `workers, `futures, `executed
      ensures Valid() && Snapshot() == Apply(old(Snapshot()), Action.Finish(w))
      ensures old(workers)[w].task !in old(futures)
      ensures var t := old(workers)[w].task; futures == old(futures)[t := work(jobs[t.client][t.index])]
      ensures workers == old(workers)[w := Ready] && executed == old(executed) + [old(workers)[w].task]
    {
      ghost var before := Snapshot();
      var t := workers[w].task;
      assert RunningOk(before, w, t);
      futures := futures[t := work(jobs[t.client][t.index])];
      executed := executed + [t];
      workers := workers[w := Ready];
      StepInv(before, Action.Finish(w), Snapshot());
    }

    /** The fields that such a step changes. */
    method Step(a: Action)
      requires a.NotifyOne? || a.Spurious? || a.BeginDestroy? || a.NotifyAll? || a.Join?
      requires Enabled(Snapshot(), a)
      modifies `workers, `clients, `stop, `destructor
      ensures Snapshot() == Apply(old(Snapshot()), a)
      ensures a.NotifyOne? ==> clients == old(clients)[a.c := Calling]
      ensures !a.NotifyOne? ==> clients == old(clients)
      ensures a.NotifyOne? ==>
        if Asleep in old(workers) then workers == old(workers)[a.wake := Woken] else workers == old(workers)
      ensures a.Spurious? ==> old(workers)[a.w] == Asleep && workers == old(workers)[a.w := Woken]
      ensures a.NotifyAll? ==> |workers| == |old(workers)| && destructor == Joining(0)
      ensures a.NotifyAll? ==> forall w :: 0 <= w < |workers| ==>
                 workers[w] == if old(workers)[w] == Asleep then Woken else old(workers)[w]
      ensures a.BeginDestroy? || a.Join? ==> workers == old(workers)
      ensures stop == (old(stop) || a.BeginDestroy?)
      ensures a.BeginDestroy? ==> destructor == NotifyingAll
      ensures a.Join? ==> var k := old(destructor).next;
        destructor == if k < |workers| then Joining(k + 1) else Destroyed
      ensures a.NotifyOne? || a.Spurious? ==> destructor == old(destructor)
    {
      match a {
        case NotifyOne(c, w) =>
          workers := WakeOne(workers, Asleep, Woken, w);
          clients := clients[c := Calling];
        case Spurious(w) =>
          workers := workers[w := Woken];
        case BeginDestroy =>
          stop := true;
          destructor := NotifyingAll;
        case NotifyAll =>
          workers := WakeAll(workers, Asleep, Woken);
          destructor := Joining(0);
        case Join =>
          destructor := if destructor.next < |workers| then Joining(destructor.next + 1) else Destroyed;
      }
    }

    /** The notification of submit, spurious wakeups, and the destructor's steps. */
    method Other(a: Action)
      requires a.NotifyOne? || a.Spurious? || a.BeginDestroy? || a.NotifyAll? || a.Join?
      requires Valid() && Enabled(Snapshot(), a)
      modifies `workers, `clients, `stop, `destructor
      ensures Valid() && Snapshot() == Apply(old(Snapshot()), a)
      ensures a.NotifyOne? ==> clients == old(clients)[a.c := Calling]
      ensures !a.NotifyOne? ==> clients == old(clients)
      ensures a.NotifyOne? ==>
        if Asleep in old(workers) then workers == old(workers)[a.wake := Woken] else workers == old(workers)
      ensures a.Spurious? ==> old(workers)[a.w] == Asleep && workers == old(workers)[a.w := Woken]
      ensures a.NotifyAll? ==> |workers| == |old(workers)| && destructor == Joining(0)
      ensures a.NotifyAll? ==> forall w :: 0 <= w < |workers| ==>
                 workers[w] == if old(workers)[w] == Asleep then Woken else old(workers)[w]
      ensures a.BeginDestroy? || a.Join? ==> workers == old(workers)
      ensures stop == (old(stop) || a.BeginDestroy?)
      ensures a.BeginDestroy? ==> destructor == NotifyingAll
      ensures a.Join? ==> var k := old(destructor).next;
        destructor == if k < |workers| then Joining(k + 1) else Destroyed
      ensures a.NotifyOne? || a.Spurious? ==> destructor == old(destructor)
      ensures a.Join? && old(destructor).next < |workers| ==> workers[old(destructor).next] == Gone
    {
      ghost var before := Snapshot();
      Step(a);
      StepInv(before, a, Snapshot());
    }
  }
}
