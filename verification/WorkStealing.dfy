/**
  The work-stealing pool: one deque a worker, tasks submitted round-robin, idle
  workers stealing from the other end, and a destructor that drains.

  A step is one locked deque operation, one atomic load or update, or running one
  task.  `pending` is incremented after the push, so a task can be taken and even
  finished before it is counted.  Which victim a thief picks is left open.  A task
  is known by the number of pushes before its own.
 */
module WorkStealing {
  import opened Runs
  import opened Sums

  datatype WorkerPc =
    | Head               // about to test `stop`
    | Local              // about to pop its own deque
    | Stealing(tries: nat)
    | Running(task: nat)
    | Ran                // about to decrement `pending`
    | NoTask             // found nothing, about to load `pending`
    | NoTaskZero         // loaded zero, about to load `stop`
    | Gone

  datatype SubmitterPc =
    | Ready                         // about to draw a deque number
    | Chosen(who: nat, draw: nat)   // about to push to the deque that its draw gave
    | Pushed                        // about to increment `pending`

  datatype DestructorPc = NotBegun | Draining | Stopping | Joining(next: nat) | Destroyed

  /** Where a pushed task is. */
  datatype Place = Queued(who: nat) | Held(worker: nat) | Executed

  /**
    With `waits` the program destroys the pool only when every submit has returned; `orderly` tells that it was so.
    The last three are history: the deque that each draw gave, and of each task the draw of its submit and the
    deque that it was pushed to.
   */
  datatype State = State(
    waits: bool, dqs: seq<seq<nat>>, workers: seq<WorkerPc>, pending: int, stop: bool,
    submitters: seq<SubmitterPc>, left: seq<nat>, rr: nat,
    destructor: DestructorPc, orderly: bool,
    pushes: nat, place: map<nat, Place>, executed: seq<nat>,
    drawn: seq<nat>, drawOf: seq<nat>, sentTo: seq<nat>)

  datatype Action =
    | TestStop(w: nat)
    | PopLocal(w: nat)
    | Steal(w: nat, victim: nat)
    | GiveUp(w: nat)
    | RunTask(w: nat)
    | Decrement(w: nat)
    | LoadPending(w: nat)
    | LoadStop(w: nat)
    | Draw(u: nat)
    | PushTask(u: nat)
    | Increment(u: nat)
    | BeginDestroy
    | TestDrained
    | SetStop
    | Join

  // ---------- the steps ----------

  predicate Shape(s: State) {
    |s.dqs| == |s.workers| > 0 && |s.left| == |s.submitters|
  }

  predicate AllSubmitted(s: State) {
    && |s.left| == |s.submitters|
    && forall u :: 0 <= u < |s.submitters| ==> s.submitters[u] == Ready && s.left[u] == 0
  }

  predicate Enabled(s: State, a: Action) {
    && Shape(s)
    && match a
       case TestStop(w) => w < |s.workers| && s.workers[w] == Head
       case PopLocal(w) => w < |s.workers| && s.workers[w] == Local
       case Steal(w, v) =>
         w < |s.workers| && v < |s.dqs| && s.workers[w].Stealing? && s.workers[w].tries < |s.dqs|
       case GiveUp(w) => w < |s.workers| && s.workers[w] == Stealing(|s.dqs|)
       case RunTask(w) => w < |s.workers| && s.workers[w].Running?
       case Decrement(w) => w < |s.workers| && s.workers[w] == Ran
       case LoadPending(w) => w < |s.workers| && s.workers[w] == NoTask
       case LoadStop(w) => w < |s.workers| && s.workers[w] == NoTaskZero
       case Draw(u) => u < |s.submitters| && s.submitters[u] == Ready && s.left[u] > 0
       case PushTask(u) => u < |s.submitters| && s.submitters[u].Chosen? && s.submitters[u].who < |s.dqs|
       case Increment(u) => u < |s.submitters| && s.submitters[u] == Pushed && s.left[u] > 0
       case BeginDestroy => s.destructor == NotBegun && (s.waits ==> AllSubmitted(s))
       case TestDrained => s.destructor == Draining
       case SetStop => s.destructor == Stopping
       case Join =>
         && s.destructor.Joining?
         && (s.destructor.next < |s.workers| ==> s.workers[s.destructor.next] == Gone)
  }

  function Hold(s: State, w: nat, task: nat): State
    requires w < |s.workers|
  {
    s.(workers := s.workers[w := Running(task)], place := s.place[task := Held(w)])
  }

  /** pop_local: the newest task of the own deque. */
  function ApplyPopLocal(s: State, w: nat): State
    requires Enabled(s, PopLocal(w))
  {
    var dq := s.dqs[w];
    if dq == [] then s.(workers := s.workers[w := Stealing(0)])
    else Hold(s, w, dq[|dq| - 1]).(dqs := s.dqs[w := dq[..|dq| - 1]])
  }

  /** steal_from: the oldest task of the victim's deque; a thief passes over itself. */
  function ApplySteal(s: State, w: nat, victim: nat): State
    requires Enabled(s, Steal(w, victim))
  {
    var dq := s.dqs[victim];
    if victim == w || dq == [] then
      s.(workers := s.workers[w := Stealing(s.workers[w].tries + 1)])
    else
      Hold(s, w, dq[0]).(dqs := s.dqs[victim := dq[1..]])
  }

  function Apply(s: State, a: Action): State
    requires Enabled(s, a)
  {
    match a
    case TestStop(w) => s.(workers := s.workers[w := if s.stop then Gone else Local])
    case PopLocal(w) => ApplyPopLocal(s, w)
    case Steal(w, v) => ApplySteal(s, w, v)
    case GiveUp(w) => s.(workers := s.workers[w := NoTask])
    case RunTask(w) =>
      var task := s.workers[w].task;
      s.(workers := s.workers[w := Ran], place := s.place[task := Executed], executed := s.executed + [task])
    case Decrement(w) => s.(workers := s.workers[w := Head], pending := s.pending - 1)
    case LoadPending(w) => s.(workers := s.workers[w := if s.pending == 0 then NoTaskZero else Head])
    case LoadStop(w) => s.(workers := s.workers[w := if s.stop then Gone else Head])
    case Draw(u) =>
      var who := s.rr % |s.dqs|;
      s.(submitters := s.submitters[u := Chosen(who, |s.drawn|)], rr := s.rr + 1, drawn := s.drawn + [who])
    case PushTask(u) =>
      var who := s.submitters[u].who;
      s.(submitters := s.submitters[u := Pushed], dqs := s.dqs[who := s.dqs[who] + [s.pushes]],
         pushes := s.pushes + 1, place := s.place[s.pushes := Queued(who)],
         drawOf := s.drawOf + [s.submitters[u].draw], sentTo := s.sentTo + [who])
    case Increment(u) =>
      s.(submitters := s.submitters[u := Ready], left := s.left[u := s.left[u] - 1], pending := s.pending + 1)
    case BeginDestroy => s.(destructor := Draining, orderly := AllSubmitted(s))
    case TestDrained => if s.pending > 0 then s else s.(destructor := Stopping)
    case SetStop => s.(stop := true, destructor := Joining(0))
    case Join =>
      if s.destructor.next < |s.workers| then s.(destructor := Joining(s.destructor.next + 1))
      else s.(destructor := Destroyed)
  }

  ghost predicate Next(s: State, a: Action, t: State) {
    Enabled(s, a) && t == Apply(s, a)
  }

  ghost predicate Init(s: State) {
    && Shape(s) && s.pending == 0 && !s.stop && s.destructor == NotBegun && !s.orderly
    && s.pushes == 0 && s.place == map[] && s.executed == [] && s.drawn == s.drawOf == s.sentTo == []
    && (forall i :: 0 <= i < |s.dqs| ==> s.dqs[i] == [] && s.workers[i] == Head)
    && (forall u :: 0 <= u < |s.submitters| ==> s.submitters[u] == Ready)
  }

  // ---------- the invariant ----------

  function Length(dq: seq<nat>): nat { |dq| }

  /** 1 for a worker with a task it has not yet taken off `pending`. */
  function Holds(pc: WorkerPc): nat { if pc.Running? || pc.Ran? then 1 else 0 }

  /** 1 for a submit between its push and its increment. */
  function Uncounted(pc: SubmitterPc): nat { if pc.Pushed? then 1 else 0 }

  function QueuedTasks(s: State): nat { Sum(Length, s.dqs) }

  function HeldTasks(s: State): nat { Sum(Holds, s.workers) }

  function UncountedTasks(s: State): nat { Sum(Uncounted, s.submitters) }

  /** pending = tasks queued + tasks taken but not yet decremented - submits not yet counted. */
  ghost predicate Account(s: State) {
    s.pending == QueuedTasks(s) + HeldTasks(s) - UncountedTasks(s)
  }

  predicate Increasing(dq: seq<nat>) {
    forall i, j :: 0 <= i < j < |dq| ==> dq[i] < dq[j]
  }

  /** Each deque holds exactly the tasks placed there, oldest first. */
  ghost predicate DequeOk(s: State, i: nat)
    requires i < |s.dqs|
  {
    && Increasing(s.dqs[i])
    && (forall task :: task in s.dqs[i] <==> task in s.place && s.place[task] == Queued(i))
  }

  ghost predicate WorkerOk(s: State, w: nat)
    requires w < |s.workers|
  {
    && (s.workers[w].Running? ==> s.workers[w].task in s.place && s.place[s.workers[w].task] == Held(w))
    && (s.workers[w].Stealing? ==> s.workers[w].tries <= |s.dqs|)
    && (s.workers[w] == Gone ==> s.stop)
  }

  ghost predicate TaskOk(s: State, task: nat)
    requires task in s.place
  {
    match s.place[task]
    case Queued(i) => i < |s.dqs|
    case Held(w) => w < |s.workers| && s.workers[w] == Running(task)
    case Executed => task in s.executed
  }

  ghost predicate Once(s: State) {
    && (forall k :: 0 <= k < |s.executed| ==>
          s.executed[k] in s.place && s.place[s.executed[k]] == Executed)
    && (forall j, k :: 0 <= j < k < |s.executed| ==> s.executed[j] != s.executed[k])
  }

  /** A submit under way is one of those left. */
  ghost predicate SubmittersOk(s: State)
    requires |s.left| == |s.submitters|
  {
    forall u :: 0 <= u < |s.submitters| ==>
      && (s.submitters[u].Chosen? ==> s.submitters[u].who < |s.dqs|)
      && (s.submitters[u] != Ready ==> s.left[u] > 0)
  }

  /** Every task is in one place: a deque, a worker's hand, or among the executed ones, once. */
  ghost predicate Places(s: State) {
    && Shape(s) && Once(s)
    && (forall i :: 0 <= i < |s.dqs| ==> DequeOk(s, i))
    && (forall w :: 0 <= w < |s.workers| ==> WorkerOk(s, w))
    && (forall task :: task in s.place ==> TaskOk(s, task))
    && (forall task: nat :: task in s.place <==> task < s.pushes)
    && SubmittersOk(s)
  }

  predicate Drained(s: State) {
    s.destructor.Stopping? || s.destructor.Joining? || s.destructor.Destroyed?
  }

  /** After an orderly drain nothing is left and nothing can come. */
  ghost predicate Destruction(s: State) {
    && (s.stop <==> s.destructor.Joining? || s.destructor.Destroyed?)
    && (s.destructor.Joining? ==>
          s.destructor.next <= |s.workers| && forall w :: 0 <= w < s.destructor.next ==> s.workers[w] == Gone)
    && (s.destructor.Destroyed? ==> forall w :: 0 <= w < |s.workers| ==> s.workers[w] == Gone)
    && (s.orderly ==> AllSubmitted(s) && !s.destructor.NotBegun?)
    && (s.orderly && Drained(s) ==> QueuedTasks(s) == HeldTasks(s) == 0)
  }

  ghost predicate Inv(s: State) {
    Places(s) && Account(s) && Destruction(s)
  }

  lemma InitInv(s: State)
    requires Init(s)
    ensures Inv(s)
  {
    SumZero(Length, s.dqs);
    SumZero(Holds, s.workers);
    SumZero(Uncounted, s.submitters);
  }

  // Places, step by step.

  /** A worker's steps that move no task. */
  lemma PlacesIdle(s: State, w: nat, pc: WorkerPc, t: State)
    requires Places(s) && w < |s.workers| && !s.workers[w].Running? && !pc.Running?
    requires t == s.(workers := s.workers[w := pc], pending := t.pending)
    requires WorkerOk(t, w)
    ensures Places(t)
  {
    forall v | 0 <= v < |t.workers| ensures WorkerOk(t, v) {
      assert WorkerOk(s, v);
    }
    forall i | 0 <= i < |t.dqs| ensures DequeOk(t, i) {
      assert DequeOk(s, i);
    }
    forall task | task in t.place ensures TaskOk(t, task) {
      assert TaskOk(s, task);
    }
  }

  lemma PlacesFrame(s: State, t: State)
    requires Places(s) && Shape(t) && SubmittersOk(t) && t.dqs == s.dqs && t.workers == s.workers
    requires t.place == s.place && t.executed == s.executed && t.pushes == s.pushes && (s.stop ==> t.stop)
    ensures Places(t)
  {
    forall w | 0 <= w < |t.workers| ensures WorkerOk(t, w) {
      assert WorkerOk(s, w);
    }
    forall i | 0 <= i < |t.dqs| ensures DequeOk(t, i) {
      assert DequeOk(s, i);
    }
    forall task | task in t.place ensures TaskOk(t, task) {
      assert TaskOk(s, task);
    }
  }

  /** The steps of submitters and of the destructor, apart from the push. */
  lemma PlacesOutside(s: State, a: Action, t: State)
    requires a.Draw? || a.Increment? || a.BeginDestroy? || a.TestDrained? || a.SetStop? || a.Join?
    requires Places(s) && Next(s, a, t)
    ensures Places(t)
  {
    if !a.Draw? && !a.Increment? {
      assert t.submitters == s.submitters && t.left == s.left;
    }
    PlacesFrame(s, t);
  }

  lemma PlacesRun(s: State, w: nat, t: State)
    requires Places(s) && Next(s, RunTask(w), t)
    ensures Places(t)
  {
    var done := s.workers[w].task;
    assert WorkerOk(s, w);
    forall v | 0 <= v < |t.workers| ensures WorkerOk(t, v) {
      assert WorkerOk(s, v);
    }
    forall i | 0 <= i < |t.dqs| ensures DequeOk(t, i) {
      assert DequeOk(s, i);
    }
    forall task | task in t.place ensures TaskOk(t, task) {
      assert TaskOk(s, task);
      if task == done {
        assert t.executed[|s.executed|] == task;
      }
    }
  }

  /** Taking a task off either end of a deque. */
  lemma PlacesTake(s: State, w: nat, from: nat, task: nat, rest: seq<nat>, t: State)
    requires Places(s) && w < |s.workers| && from < |s.dqs|
    requires s.dqs[from] == [task] + rest || s.dqs[from] == rest + [task]
    requires !s.workers[w].Running? && t == Hold(s, w, task).(dqs := s.dqs[from := rest])
    ensures Places(t)
  {
    assert DequeOk(s, from);
    assert task in s.dqs[from];
    assert s.place[task] == Queued(from);
    forall v | 0 <= v < |t.workers| ensures WorkerOk(t, v) {
      assert WorkerOk(s, v);
    }
    forall i | 0 <= i < |t.dqs| ensures DequeOk(t, i) {
      assert DequeOk(s, i);
      if i == from {
        TakenFromDeque(s.dqs[from], task, rest);
      }
    }
    forall other | other in t.place ensures TaskOk(t, other) {
      assert TaskOk(s, other);
    }
  }

  lemma TakenFromDeque(dq: seq<nat>, task: nat, rest: seq<nat>)
    requires Increasing(dq) && (dq == [task] + rest || dq == rest + [task])
    ensures Increasing(rest)
    ensures forall x :: x in rest <==> x in dq && x != task
  {
    var shift := if dq == [task] + rest then 1 else 0;
    assert forall k :: 0 <= k < |rest| ==> rest[k] == dq[k + shift];
    assert dq[if dq == [task] + rest then 0 else |rest|] == task;
    forall x | x in rest ensures x in dq && x != task {
      var k :| 0 <= k < |rest| && rest[k] == x;
      assert dq[k + shift] == x;
    }
    forall x | x in dq && x != task ensures x in rest {
      var k :| 0 <= k < |dq| && dq[k] == x;
      assert rest[k - shift] == x;
    }
  }

  lemma PlacesPush(s: State, u: nat, t: State)
    requires Places(s) && Next(s, PushTask(u), t)
    ensures Places(t)
  {
    var who := s.submitters[u].who;
    forall v | 0 <= v < |t.workers| ensures WorkerOk(t, v) {
      assert WorkerOk(s, v);
    }
    forall i | 0 <= i < |t.dqs| ensures DequeOk(t, i) {
      assert DequeOk(s, i);
      if i == who {
        assert forall k :: 0 <= k < |s.dqs[i]| ==> t.dqs[i][k] == s.dqs[i][k] && s.dqs[i][k] in s.dqs[i];
        assert t.dqs[i][|s.dqs[i]|] == s.pushes;
      }
    }
    forall task | task in t.place ensures TaskOk(t, task) {
      assert task != s.pushes ==> TaskOk(s, task);
    }
  }

  lemma PlacesWorker(s: State, a: Action, t: State)
    requires a.TestStop? || a.PopLocal? || a.Steal? || a.GiveUp? || a.Decrement? || a.LoadPending? || a.LoadStop?
    requires Places(s) && Next(s, a, t)
    ensures Places(t)
  {
    var w := a.w;
    assert WorkerOk(s, w);
    if a.PopLocal? && s.dqs[w] != [] {
      var dq := s.dqs[w];
      PlacesTake(s, w, w, dq[|dq| - 1], dq[..|dq| - 1], t);
    } else if a.Steal? && a.victim != w && s.dqs[a.victim] != [] {
      PlacesTake(s, w, a.victim, s.dqs[a.victim][0], s.dqs[a.victim][1..], t);
    } else {
      PlacesIdle(s, w, t.workers[w], t);
    }
  }

  lemma PlacesStep(s: State, a: Action, t: State)
    requires Places(s) && Next(s, a, t)
    ensures Places(t)
  {
    match a
    case RunTask(w) => PlacesRun(s, w, t);
    case PushTask(u) => PlacesPush(s, u, t);
    case Draw(u) => PlacesOutside(s, a, t);
    case Increment(u) => PlacesOutside(s, a, t);
    case BeginDestroy => PlacesOutside(s, a, t);
    case TestDrained => PlacesOutside(s, a, t);
    case SetStop => PlacesOutside(s, a, t);
    case Join => PlacesOutside(s, a, t);
    case _ => PlacesWorker(s, a, t);
  }

  // The account, step by step.

  lemma AccountWorker(s: State, a: Action, t: State)
    requires a.TestStop? || a.PopLocal? || a.GiveUp? || a.RunTask? || a.Decrement? || a.LoadPending? || a.LoadStop?
    requires Account(s) && Next(s, a, t)
    ensures Account(t)
  {
    SumUpdate(Holds, s.workers, a.w, t.workers[a.w]);
    if a.PopLocal? && s.dqs[a.w] != [] {
      SumUpdate(Length, s.dqs, a.w, t.dqs[a.w]);
    }
  }

  lemma AccountSteal(s: State, w: nat, victim: nat, t: State)
    requires Account(s) && Next(s, Steal(w, victim), t)
    ensures Account(t)
  {
    SumUpdate(Holds, s.workers, w, t.workers[w]);
    if victim != w && s.dqs[victim] != [] {
      SumUpdate(Length, s.dqs, victim, t.dqs[victim]);
    }
  }

  lemma AccountSubmitter(s: State, a: Action, t: State)
    requires a.Draw? || a.PushTask? || a.Increment?
    requires Account(s) && Next(s, a, t)
    ensures Account(t)
  {
    SumUpdate(Uncounted, s.submitters, a.u, t.submitters[a.u]);
    if a.PushTask? {
      var who := s.submitters[a.u].who;
      SumUpdate(Length, s.dqs, who, t.dqs[who]);
    }
  }

  /** In every reachable state the counter is what the account says. */
  lemma AccountStep(s: State, a: Action, t: State)
    requires Account(s) && Next(s, a, t)
    ensures Account(t)
  {
    match a
    case Steal(w, v) => AccountSteal(s, w, v, t);
    case Draw(u) => AccountSubmitter(s, a, t);
    case PushTask(u) => AccountSubmitter(s, a, t);
    case Increment(u) => AccountSubmitter(s, a, t);
    case BeginDestroy =>
    case TestDrained =>
    case SetStop =>
    case Join =>
    case _ => AccountWorker(s, a, t);
  }

  // Destruction, step by step.

  /** With every submit returned, a counter that is not positive means that nothing is left. */
  lemma NothingLeft(s: State)
    requires Account(s) && AllSubmitted(s) && s.pending <= 0
    ensures QueuedTasks(s) == HeldTasks(s) == 0
  {
    SumZero(Uncounted, s.submitters);
  }

  predicate WorkerAction(a: Action) {
    || a.TestStop? || a.PopLocal? || a.Steal? || a.GiveUp? || a.RunTask? || a.Decrement?
    || a.LoadPending? || a.LoadStop?
  }

  /** When nothing is queued or held, a worker's step finds nothing. */
  lemma NothingFound(s: State, a: Action, t: State)
    requires WorkerAction(a) && Next(s, a, t)
    requires forall i :: 0 <= i < |s.dqs| ==> s.dqs[i] == []
    requires forall w :: 0 <= w < |s.workers| ==> Holds(s.workers[w]) == 0
    ensures t.dqs == s.dqs && Holds(t.workers[a.w]) == 0 && t.workers == s.workers[a.w := t.workers[a.w]]
  {
    assert Holds(s.workers[a.w]) == 0;
  }

  lemma NothingComes(s: State, a: Action, t: State)
    requires WorkerAction(a) && Next(s, a, t) && QueuedTasks(s) == HeldTasks(s) == 0
    ensures QueuedTasks(t) == HeldTasks(t) == 0
  {
    SumZero(Length, s.dqs);
    SumZero(Holds, s.workers);
    assert forall i :: 0 <= i < |s.dqs| ==> Length(s.dqs[i]) == 0;
    NothingFound(s, a, t);
    SumUpdate(Holds, s.workers, a.w, t.workers[a.w]);
  }

  /** What a worker's step leaves alone: the destructor, the submits, the other workers. */
  predicate OthersAlone(s: State, w: nat, t: State) {
    && t.waits == s.waits && t.stop == s.stop && t.destructor == s.destructor && t.orderly == s.orderly
    && t.submitters == s.submitters && t.left == s.left && |t.dqs| == |s.dqs|
    && |t.workers| == |s.workers| && w < |s.workers| && t.workers == s.workers[w := t.workers[w]]
  }

  lemma SearchLeavesAlone(s: State, a: Action, t: State)
    requires (a.PopLocal? || a.Steal?) && Next(s, a, t)
    ensures OthersAlone(s, a.w, t)
  {
  }

  /** And a worker that has left makes no step. */
  lemma WorkerLeavesAlone(s: State, a: Action, t: State)
    requires WorkerAction(a) && Next(s, a, t)
    ensures OthersAlone(s, a.w, t) && s.workers[a.w] != Gone
  {
    if a.PopLocal? || a.Steal? {
      SearchLeavesAlone(s, a, t);
    }
  }

  lemma DestructionWorker(s: State, a: Action, t: State)
    requires WorkerAction(a) && Destruction(s) && Next(s, a, t)
    ensures Destruction(t)
  {
    WorkerLeavesAlone(s, a, t);
    if s.orderly && Drained(s) {
      NothingComes(s, a, t);
    }
  }

  lemma DestructionOther(s: State, a: Action, t: State)
    requires a.Draw? || a.PushTask? || a.Increment? || a.BeginDestroy? || a.TestDrained? || a.SetStop? || a.Join?
    requires Destruction(s) && Account(s) && Shape(s) && Next(s, a, t)
    ensures Destruction(t)
  {
    if a.TestDrained? && s.orderly && s.pending <= 0 {
      NothingLeft(s);
    }
  }

  lemma StepInv(s: State, a: Action, t: State)
    requires Inv(s) && Next(s, a, t)
    ensures Inv(t)
  {
    PlacesStep(s, a, t);
    AccountStep(s, a, t);
    match a
    case Draw(u) => DestructionOther(s, a, t);
    case PushTask(u) => DestructionOther(s, a, t);
    case Increment(u) => DestructionOther(s, a, t);
    case BeginDestroy => DestructionOther(s, a, t);
    case TestDrained => DestructionOther(s, a, t);
    case SetStop => DestructionOther(s, a, t);
    case Join => DestructionOther(s, a, t);
    case _ => DestructionWorker(s, a, t);
  }

  lemma Reachable(s0: State, acts: seq<Action>, s: State)
    requires Init(s0) && Run(Next, s0, acts, s)
    ensures Inv(s)
  {
    InitInv(s0);
    forall x, a, y | Inv(x) && Next(x, a, y) ensures Inv(y) { StepInv(x, a, y); }
    RunInvariant(Next, Inv, s0, acts, s);
  }

  // ---------- the main results ----------

  ghost predicate NothingQueuedOrHeld(s: State) {
    && (forall i :: 0 <= i < |s.dqs| ==> s.dqs[i] == [])
    && (forall w :: 0 <= w < |s.workers| ==> Holds(s.workers[w]) == 0)
  }

  /** Every task pushed so far has run, and has run once. */
  ghost predicate AllExecutedOnce(s: State) {
    && (forall task: nat :: task in s.executed <==> task < s.pushes)
    && (forall j, k :: 0 <= j < k < |s.executed| ==> s.executed[j] != s.executed[k])
  }

  lemma NothingLeftAllExecuted(s: State)
    requires Places(s) && NothingQueuedOrHeld(s)
    ensures AllExecutedOnce(s)
  {
    forall task: nat | task < s.pushes ensures task in s.executed {
      assert TaskOk(s, task);
      forall i | 0 <= i < |s.dqs| ensures s.place[task] != Queued(i) {
        assert DequeOk(s, i);
      }
      assert forall w :: 0 <= w < |s.workers| ==> Holds(s.workers[w]) == 0;
    }
    forall task: nat | task in s.executed ensures task < s.pushes {
      var k :| 0 <= k < |s.executed| && s.executed[k] == task;
    }
  }

  /** The counter, for any number of workers and submitters, in every reachable state. */
  lemma PendingAccounts(s0: State, acts: seq<Action>, s: State)
    requires Init(s0) && Run(Next, s0, acts, s)
    ensures s.pending == QueuedTasks(s) + HeldTasks(s) - UncountedTasks(s)
  {
    Reachable(s0, acts, s);
  }

  /**
    When the counter reads zero the work is done exactly if no submit is between
    its push and its increment: that window is the one way to be misled.
   */
  lemma ZeroMeansDoneExactly(s0: State, acts: seq<Action>, s: State)
    requires Init(s0) && Run(Next, s0, acts, s) && s.pending == 0
    ensures NothingQueuedOrHeld(s) <==> forall u :: 0 <= u < |s.submitters| ==> s.submitters[u] != Pushed
    ensures NothingQueuedOrHeld(s) ==> AllExecutedOnce(s)
  {
    Reachable(s0, acts, s);
    SumZero(Length, s.dqs);
    SumZero(Holds, s.workers);
    SumZero(Uncounted, s.submitters);
    assert UncountedTasks(s) == 0 <==> QueuedTasks(s) + HeldTasks(s) == 0;
    if NothingQueuedOrHeld(s) {
      NothingLeftAllExecuted(s);
    }
  }

  lemma DestroyedIsDone(s: State)
    requires Inv(s)
    ensures s.destructor == Destroyed && s.orderly ==> AllExecutedOnce(s) && NothingQueuedOrHeld(s)
  {
    if s.destructor == Destroyed && s.orderly {
      SumZero(Length, s.dqs);
      SumZero(Holds, s.workers);
      NothingLeftAllExecuted(s);
    }
  }

  /** An orderly destruction ends with every task executed once, every deque empty and every worker gone. */
  lemma OrderlyDestructionDrains(s0: State, acts: seq<Action>, s: State)
    requires Init(s0) && Run(Next, s0, acts, s) && s.orderly && s.destructor == Destroyed
    ensures AllExecutedOnce(s) && NothingQueuedOrHeld(s) && s.pending == 0
    ensures forall w :: 0 <= w < |s.workers| ==> s.workers[w] == Gone
  {
    Reachable(s0, acts, s);
    SumZero(Length, s.dqs);
    SumZero(Holds, s.workers);
    SumZero(Uncounted, s.submitters);
    NothingLeftAllExecuted(s);
  }

  lemma DequesIncrease(s0: State, acts: seq<Action>, s: State, i: nat)
    requires Init(s0) && Run(Next, s0, acts, s) && i < |s.dqs|
    ensures Increasing(s.dqs[i])
  {
    Reachable(s0, acts, s);
    assert DequeOk(s, i);
  }

  lemma NewestTaken(s: State, w: nat, t: State)
    requires Next(s, PopLocal(w), t) && s.dqs[w] != [] && Increasing(s.dqs[w])
    ensures t.workers[w].Running? && t.workers[w].task in s.dqs[w]
    ensures forall x :: x in t.dqs[w] <==> x in s.dqs[w] && x != t.workers[w].task
    ensures forall x :: x in t.dqs[w] ==> x < t.workers[w].task
  {
    var dq := s.dqs[w];
    TakenFromDeque(dq, dq[|dq| - 1], dq[..|dq| - 1]);
  }

  lemma OldestTaken(s: State, w: nat, v: nat, t: State)
    requires Next(s, Steal(w, v), t) && t.workers[w].Running? && Increasing(s.dqs[v])
    ensures v != w && t.workers[w].task in s.dqs[v]
    ensures forall x :: x in t.dqs[v] <==> x in s.dqs[v] && x != t.workers[w].task
    ensures forall x :: x in t.dqs[v] ==> t.workers[w].task < x
  {
    TakenFromDeque(s.dqs[v], s.dqs[v][0], s.dqs[v][1..]);
    assert t.dqs[v] == s.dqs[v][1..];
  }

  /** The owner takes the newest task of its own deque. */
  lemma OwnerTakesNewest(s0: State, acts: seq<Action>, s: State, w: nat, t: State)
    requires Init(s0) && Run(Next, s0, acts, s) && Next(s, PopLocal(w), t) && s.dqs[w] != []
    ensures t.workers[w].Running? && t.workers[w].task in s.dqs[w]
    ensures forall x :: x in t.dqs[w] <==> x in s.dqs[w] && x != t.workers[w].task
    ensures forall x :: x in t.dqs[w] ==> x < t.workers[w].task
  {
    DequesIncrease(s0, acts, s, w);
    NewestTaken(s, w, t);
  }

  /** A thief takes the oldest task of another worker's deque. */
  lemma ThiefTakesOldest(s0: State, acts: seq<Action>, s: State, w: nat, v: nat, t: State)
    requires Init(s0) && Run(Next, s0, acts, s) && Next(s, Steal(w, v), t) && t.workers[w].Running?
    ensures v != w && t.workers[w].task in s.dqs[v]
    ensures forall x :: x in t.dqs[v] <==> x in s.dqs[v] && x != t.workers[w].task
    ensures forall x :: x in t.dqs[v] ==> t.workers[w].task < x
  {
    DequesIncrease(s0, acts, s, v);
    OldestTaken(s, w, v, t);
  }

  predicate ByWorker(a: Action, w: nat) { WorkerAction(a) && a.w == w }

  /** The step of worker w that brings it to deque v, when its own deque is empty. */
  function TowardsVictim(s: State, w: nat, v: nat): Action
    requires w < |s.workers|
  {
    match s.workers[w]
    case Local => PopLocal(w)
    case Stealing(k) => if k < |s.dqs| then Steal(w, v) else GiveUp(w)
    case NoTask => LoadPending(w)
    case NoTaskZero => LoadStop(w)
    case Running(_) => RunTask(w)
    case Ran => Decrement(w)
    case _ => TestStop(w)
  }

  /** How many steps away that is. */
  function StepsToVictim(n: nat, pc: WorkerPc): nat {
    match pc
    case Stealing(k) => if k < n then 1 else 6
    case Local => 2
    case Head => 3
    case NoTaskZero => 4
    case Ran => 4
    case NoTask => 5
    case Running(_) => 5
    case Gone => 0
  }

  /** Once stop is set only a worker already past the test of its loop still looks for tasks. */
  predicate MayTake(s: State, w: nat)
    requires w < |s.workers|
  {
    && (s.stop ==> s.workers[w] == Local || s.workers[w].Stealing?)
    && (s.stop && s.workers[w].Stealing? ==> s.workers[w].tries < |s.dqs|)
    && (s.workers[w].Stealing? ==> s.workers[w].tries <= |s.dqs|) && s.workers[w] != Gone
  }

  lemma TowardsVictimStep(s: State, w: nat, v: nat)
    requires Shape(s) && w < |s.dqs| && v < |s.dqs| && v != w && s.dqs[w] == [] && s.dqs[v] != [] && MayTake(s, w)
    ensures Enabled(s, TowardsVictim(s, w, v)) && ByWorker(TowardsVictim(s, w, v), w)
    ensures var t, stealing := Apply(s, TowardsVictim(s, w, v)), s.workers[w].Stealing? && s.workers[w].tries < |s.dqs|;
      && Shape(t) && |t.dqs| == |s.dqs|
      && (stealing ==> t.workers[w] == Running(s.dqs[v][0]) && t.dqs == s.dqs[v := s.dqs[v][1..]])
      && (!stealing ==> t.dqs == s.dqs && MayTake(t, w))
      && (!stealing ==> StepsToVictim(|s.dqs|, t.workers[w]) < StepsToVictim(|s.dqs|, s.workers[w]))
  {
  }

  lemma {:induction false} GoesStealing(s: State, w: nat, v: nat) returns (acts: seq<Action>, t: State)
    requires Shape(s) && w < |s.dqs| && v < |s.dqs| && v != w && s.dqs[w] == [] && s.dqs[v] != [] && MayTake(s, w)
    ensures Run(Next, s, acts, t) && forall i :: 0 <= i < |acts| ==> ByWorker(acts[i], w)
    ensures |t.workers| == |s.workers| && t.workers[w] == Running(s.dqs[v][0])
    ensures t.dqs == s.dqs[v := s.dqs[v][1..]]
    ensures s.workers[w] == Local ==> acts == [PopLocal(w)] + [Steal(w, v)]
    ensures s.workers[w].Stealing? && s.workers[w].tries < |s.dqs| ==> acts == [Steal(w, v)]
    decreases StepsToVictim(|s.dqs|, s.workers[w])
  {
    var a := TowardsVictim(s, w, v);
    TowardsVictimStep(s, w, v);
    var m := Apply(s, a);
    if s.workers[w].Stealing? && s.workers[w].tries < |s.dqs| {
      acts, t := [a], m;
      Single(Next, s, a, m);
    } else {
      var rest;
      rest, t := GoesStealing(m, w, v);
      acts := [a] + rest;
      Prepend(Next, s, a, m, rest, t);
    }
  }

  lemma IdleReached(s0: State, before: seq<Action>, s: State, w: nat, v: nat)
    requires Init(s0) && Run(Next, s0, before, s) && Shape(s) && w < |s.dqs| && v < |s.dqs|
    requires !s.stop || s.workers[w] == Local
    ensures MayTake(s, w) && Increasing(s.dqs[v])
  {
    Reachable(s0, before, s);
    assert WorkerOk(s, w) && DequeOk(s, v);
  }

  /**
    A worker with nothing of its own goes stealing.  Wherever it is in its loop, its own
    steps alone can bring it to run the oldest task of any other deque that has one; from
    the look at its own deque they are two.
   */
  lemma IdleWorkerSteals(s0: State, before: seq<Action>, s: State, w: nat, v: nat)
    returns (acts: seq<Action>, t: State)
    requires Init(s0) && Run(Next, s0, before, s) && Shape(s) && w < |s.dqs| && v < |s.dqs| && v != w
    requires s.dqs[w] == [] && s.dqs[v] != [] && (!s.stop || s.workers[w] == Local)
    ensures Run(Next, s, acts, t) && forall i :: 0 <= i < |acts| ==> ByWorker(acts[i], w)
    ensures |t.workers| == |s.workers| && |t.dqs| == |s.dqs|
    ensures t.workers[w].Running? && t.workers[w].task in s.dqs[v]
    ensures forall x :: x in s.dqs[v] ==> t.workers[w].task <= x
    ensures t.dqs == s.dqs[v := t.dqs[v]] && [t.workers[w].task] + t.dqs[v] == s.dqs[v]
    ensures s.workers[w] == Local ==> acts == [PopLocal(w)] + [Steal(w, v)]
  {
    IdleReached(s0, before, s, w, v);
    acts, t := GoesStealing(s, w, v);
    assert s.dqs[v][0] in s.dqs[v];
  }

  // ---------- round robin ----------

  function Is(i: nat): nat -> nat { (who: nat) => if who == i then 1 else 0 }

  /** How often i occurs. */
  function Count(i: nat, xs: seq<nat>): nat { Sum(Is(i), xs) }

  /** How many numbers below m have remainder i. */
  function Below(n: nat, m: nat, i: nat): nat
    requires i < n
  {
    m / n + if i < m % n then 1 else 0
  }

  lemma OneMore(n: nat, m: nat)
    requires n > 0
    ensures if m % n + 1 < n then (m + 1) / n == m / n && (m + 1) % n == m % n + 1
            else (m + 1) / n == m / n + 1 && (m + 1) % n == 0
  {
    var q, c := m / n, m % n;
    assert m == q * n + c;
    if c + 1 < n {
      Divides(n, q, c + 1);
    } else {
      assert m + 1 == (q + 1) * n + 0 by { assert (q + 1) * n == q * n + n; }
      Divides(n, q + 1, 0);
    }
  }

  lemma Divides(n: nat, q: nat, c: nat)
    requires c < n
    ensures (q * n + c) / n == q && (q * n + c) % n == c
  {
    var m := q * n + c;
    var d := m / n - q;
    assert n * (m / n) + m % n == m;
    assert n * d == n * (m / n) - n * q;
    AtLeastOnce(n, d);
  }

  lemma {:induction false} AtLeastOnce(n: int, d: int)
    requires n > 0
    ensures d > 0 ==> n * d >= n
    ensures d < 0 ==> n * d <= 0 - n
    decreases if d < 0 then 0 - d else d
  {
    if d > 1 {
      AtLeastOnce(n, d - 1);
      assert n * d == n * (d - 1) + n;
    } else if d < -1 {
      AtLeastOnce(n, d + 1);
      assert n * d == n * (d + 1) - n;
    }
  }

  lemma BelowStep(n: nat, m: nat, i: nat)
    requires i < n
    ensures Below(n, m + 1, i) == Below(n, m, i) + if m % n == i then 1 else 0
  {
    OneMore(n, m);
  }

  lemma RemainderAfter(n: nat, m: nat, e: nat)
    requires e < n
    ensures (m + e) % n == if m % n + e < n then m % n + e else m % n + e - n
  {
    var q, c := m / n, m % n;
    assert m == q * n + c;
    if c + e < n {
      Divides(n, q, c + e);
    } else {
      assert (q + 1) * n == q * n + n;
      Divides(n, q + 1, c + e - n);
    }
  }

  /** Among k numbers in a row any two remainders occur equally often, give or take one. */
  lemma BelowEven(n: nat, m: nat, k: nat, i: nat, j: nat)
    requires i < n && j < n
    ensures Below(n, m + k, i) - Below(n, m, i) <= Below(n, m + k, j) - Below(n, m, j) + 1
  {
  }

  /** A stretch of numbers that go round. */
  ghost predicate GoesRound(first: nat, n: nat, xs: seq<nat>) {
    n > 0 && forall k :: 0 <= k < |xs| ==> xs[k] == (first + k) % n
  }

  lemma {:induction false} CountRound(first: nat, n: nat, xs: seq<nat>, i: nat)
    requires i < n && GoesRound(first, n, xs)
    ensures Count(i, xs) == Below(n, first + |xs|, i) - Below(n, first, i)
    decreases |xs|
  {
    if xs != [] {
      assert xs[0] == (first + 0) % n;
      assert forall k :: 0 <= k < |xs| - 1 ==> xs[1..][k] == xs[k + 1];
      CountRound(first + 1, n, xs[1..], i);
      BelowStep(n, first, i);
    }
  }

  lemma {:induction false} CountAppend(i: nat, xs: seq<nat>, x: nat)
    ensures Count(i, xs + [x]) == Count(i, xs) + Is(i)(x)
  {
    if xs == [] {
      assert xs + [x] == [x];
    } else {
      assert (xs + [x])[1..] == xs[1..] + [x];
      CountAppend(i, xs[1..], x);
    }
  }

  /** The draws go round, from where the shared counter stood. */
  ghost predicate Drawn(first: nat, s: State) {
    s.rr == first + |s.drawn| && GoesRound(first, |s.dqs|, s.drawn)
  }

  /** A submit that has drawn holds its own draw, not used by any task yet. */
  ghost predicate InHand(s: State, u: nat)
    requires u < |s.submitters|
  {
    s.submitters[u].Chosen? ==>
      && s.submitters[u].draw < |s.drawn| && s.submitters[u].who == s.drawn[s.submitters[u].draw]
      && s.submitters[u].draw !in s.drawOf
  }

  ghost predicate InHands(s: State) {
    && (forall u :: 0 <= u < |s.submitters| ==> InHand(s, u))
    && (forall u, v :: 0 <= u < v < |s.submitters| && s.submitters[u].Chosen? && s.submitters[v].Chosen? ==>
          s.submitters[u].draw != s.submitters[v].draw)
  }

  /** Each task went to the deque of a draw of its own, and while queued it is still there. */
  ghost predicate Sent(s: State) {
    && |s.drawOf| == |s.sentTo| == s.pushes
    && (forall x :: 0 <= x < |s.drawOf| ==> s.drawOf[x] < |s.drawn| && s.sentTo[x] == s.drawn[s.drawOf[x]])
    && (forall x, y :: 0 <= x < y < |s.drawOf| ==> s.drawOf[x] != s.drawOf[y])
    && (forall x :: x in s.place && s.place[x].Queued? ==> x < |s.sentTo| && s.sentTo[x] == s.place[x].who)
  }

  function DrewOf(i: nat): SubmitterPc -> nat {
    (pc: SubmitterPc) => if pc.Chosen? && pc.who == i then 1 else 0
  }

  /** Of the draws of a deque some are tasks by now, and the others in hand. */
  ghost predicate NoneLost(s: State, i: nat) {
    Count(i, s.drawn) == Count(i, s.sentTo) + Sum(DrewOf(i), s.submitters)
  }

  ghost predicate RoundRobin(first: nat, s: State) {
    Shape(s) && Drawn(first, s) && InHands(s) && Sent(s) && forall i: nat :: NoneLost(s, i)
  }

  lemma HandsDraw(s: State, u: nat, t: State)
    requires InHands(s) && Sent(s) && Next(s, Draw(u), t)
    ensures InHands(t)
  {
    forall v | 0 <= v < |t.submitters| ensures InHand(t, v) {
      assert InHand(s, v);
    }
    assert forall v :: 0 <= v < |s.submitters| && s.submitters[v].Chosen? ==> InHand(s, v);
  }

  lemma HandsPush(s: State, u: nat, t: State)
    requires InHands(s) && Next(s, PushTask(u), t)
    ensures InHands(t)
  {
    forall v | 0 <= v < |t.submitters| ensures InHand(t, v) {
      assert InHand(s, v);
    }
  }

  lemma HandsIncrement(s: State, u: nat, t: State)
    requires InHands(s) && Next(s, Increment(u), t)
    ensures InHands(t)
  {
    forall v | 0 <= v < |t.submitters| ensures InHand(t, v) {
      assert InHand(s, v);
    }
  }

  lemma SentPush(s: State, u: nat, t: State)
    requires u < |s.submitters| && InHand(s, u) && Sent(s) && Next(s, PushTask(u), t)
    ensures Sent(t)
  {
    var draw := s.submitters[u].draw;
    forall x | 0 <= x < |t.drawOf| ensures t.drawOf[x] < |t.drawn| && t.sentTo[x] == t.drawn[t.drawOf[x]] {
      assert x == s.pushes ==> t.drawOf[x] == draw;
    }
    forall x | 0 <= x < s.pushes ensures t.drawOf[x] == s.drawOf[x] != draw {
      assert s.drawOf[x] in s.drawOf;
    }
  }

  lemma NoneLostStep(s: State, a: Action, t: State, i: nat)
    requires NoneLost(s, i) && Next(s, a, t) && (a.Draw? || a.PushTask? || a.Increment?)
    ensures NoneLost(t, i)
  {
    SumUpdate(DrewOf(i), s.submitters, a.u, t.submitters[a.u]);
    if a.Draw? {
      CountAppend(i, s.drawn, s.rr % |s.dqs|);
    } else if a.PushTask? {
      CountAppend(i, s.sentTo, s.submitters[a.u].who);
    }
  }

  /** What the steps that queue nothing and draw nothing leave alone. */
  ghost predicate KeepsRound(s: State, t: State) {
    && Shape(t) && |t.dqs| == |s.dqs| && t.rr == s.rr && t.drawn == s.drawn && t.drawOf == s.drawOf
    && t.sentTo == s.sentTo && t.submitters == s.submitters && t.pushes == s.pushes
    && forall x :: x in t.place && t.place[x].Queued? ==> x in s.place && s.place[x] == t.place[x]
  }

  lemma TakeKeepsRound(s: State, w: nat, from: nat, task: nat, rest: seq<nat>, t: State)
    requires Shape(s) && w < |s.workers| && from < |s.dqs|
    requires t == Hold(s, w, task).(dqs := s.dqs[from := rest])
    ensures KeepsRound(s, t)
  {
  }

  lemma SearchKeepsRound(s: State, a: Action, t: State)
    requires Next(s, a, t) && (a.PopLocal? || a.Steal?)
    ensures KeepsRound(s, t)
  {
    if a.PopLocal? && s.dqs[a.w] != [] {
      var dq := s.dqs[a.w];
      TakeKeepsRound(s, a.w, a.w, dq[|dq| - 1], dq[..|dq| - 1], t);
    } else if a.Steal? && a.victim != a.w && s.dqs[a.victim] != [] {
      TakeKeepsRound(s, a.w, a.victim, s.dqs[a.victim][0], s.dqs[a.victim][1..], t);
    }
  }

  lemma WorkerKeepsRound(s: State, a: Action, t: State)
    requires Next(s, a, t) && WorkerAction(a) && !a.PopLocal? && !a.Steal?
    ensures KeepsRound(s, t)
  {
  }

  lemma DestructorKeepsRound(s: State, a: Action, t: State)
    requires Next(s, a, t) && (a.BeginDestroy? || a.TestDrained? || a.SetStop? || a.Join?)
    ensures KeepsRound(s, t)
  {
  }

  lemma RoundKept(first: nat, s: State, t: State)
    requires RoundRobin(first, s) && KeepsRound(s, t)
    ensures RoundRobin(first, t)
  {
    forall u | 0 <= u < |t.submitters| ensures InHand(t, u) {
      assert InHand(s, u);
    }
    forall i: nat ensures NoneLost(t, i) {
      assert NoneLost(s, i);
    }
  }

  lemma RoundSubmit(first: nat, s: State, a: Action, t: State)
    requires RoundRobin(first, s) && Next(s, a, t) && (a.Draw? || a.PushTask? || a.Increment?)
    ensures RoundRobin(first, t)
  {
    match a {
      case Draw(u) =>
        HandsDraw(s, u, t);
      case PushTask(u) =>
        assert InHand(s, u);
        HandsPush(s, u, t);
        SentPush(s, u, t);
      case Increment(u) =>
        HandsIncrement(s, u, t);
    }
    forall i: nat ensures NoneLost(t, i) {
      NoneLostStep(s, a, t, i);
    }
  }

  lemma RoundStep(first: nat, s: State, a: Action, t: State)
    requires RoundRobin(first, s) && Next(s, a, t)
    ensures RoundRobin(first, t) && |t.dqs| == |s.dqs|
  {
    if a.Draw? || a.PushTask? || a.Increment? {
      RoundSubmit(first, s, a, t);
    } else {
      if a.PopLocal? || a.Steal? {
        SearchKeepsRound(s, a, t);
      } else if WorkerAction(a) {
        WorkerKeepsRound(s, a, t);
      } else {
        DestructorKeepsRound(s, a, t);
      }
      RoundKept(first, s, t);
    }
  }

  lemma RunGoesRound(s0: State, acts: seq<Action>, s: State)
    requires Init(s0) && Run(Next, s0, acts, s)
    ensures RoundRobin(s0.rr, s) && |s.dqs| == |s0.dqs|
  {
    forall i: nat ensures NoneLost(s0, i) {
      SumZero(DrewOf(i), s0.submitters);
    }
    var inv := (x: State) => RoundRobin(s0.rr, x) && |x.dqs| == |s0.dqs|;
    forall x, a, y | inv(x) && Next(x, a, y) ensures inv(y) {
      RoundStep(s0.rr, x, a, y);
    }
    RunInvariant(Next, inv, s0, acts, s);
  }

  lemma TurnAt(first: nat, n: nat, xs: seq<nat>, k: nat, x: nat)
    requires GoesRound(first, n, xs) && k <= x < |xs| && x < k + n
    ensures xs[x] == if (first + k) % n + (x - k) < n then (first + k) % n + (x - k) else (first + k) % n + (x - k) - n
  {
    RemainderAfter(n, first + k, x - k);
    assert first + x == first + k + (x - k);
  }

  lemma TurnOnce(first: nat, n: nat, xs: seq<nat>, k: nat, i: nat) returns (j: nat)
    requires GoesRound(first, n, xs) && k + n <= |xs| && i < n
    ensures k <= j < k + n && xs[j] == i
    ensures forall x :: k <= x < k + n && xs[x] == i ==> x == j
  {
    var c := (first + k) % n;
    j := k + if c <= i then i - c else i + n - c;
    TurnAt(first, n, xs, k, j);
    forall x | k <= x < k + n && xs[x] == i ensures x == j {
      TurnAt(first, n, xs, k, x);
    }
  }

  lemma RunDraws(s0: State, acts: seq<Action>, s: State)
    requires Init(s0) && Run(Next, s0, acts, s)
    ensures |s.dqs| == |s0.dqs| > 0 && s.rr == s0.rr + |s.drawn| && GoesRound(s0.rr, |s.dqs|, s.drawn)
  {
    RunGoesRound(s0, acts, s);
  }

  lemma RoundAt(first: nat, n: nat, xs: seq<nat>, k: nat)
    requires GoesRound(first, n, xs) && k < |xs|
    ensures xs[k] == (first + k) % n
  {
  }

  /**
    Round robin, on every schedule and whoever submits: draw number k gives deque k modulo
    their number, counted from where the shared counter stood.
   */
  lemma DrawsGoRound(s0: State, acts: seq<Action>, s: State, k: nat)
    requires Init(s0) && Run(Next, s0, acts, s) && k < |s.drawn|
    ensures |s.dqs| == |s0.dqs| > 0 && s.rr == s0.rr + |s.drawn|
    ensures s.drawn[k] == (s0.rr + k) % |s.dqs|
  {
    RunDraws(s0, acts, s);
    RoundAt(s0.rr, |s.dqs|, s.drawn, k);
  }

  /** Among any n draws in a row, n the number of deques, each deque is given exactly once. */
  lemma EveryTurnOnce(s0: State, acts: seq<Action>, s: State, k: nat, i: nat) returns (j: nat)
    requires Init(s0) && Run(Next, s0, acts, s) && k + |s.dqs| <= |s.drawn| && i < |s.dqs|
    ensures k <= j < k + |s.dqs| && s.drawn[j] == i
    ensures forall x :: k <= x < k + |s.dqs| && s.drawn[x] == i ==> x == j
  {
    RunDraws(s0, acts, s);
    j := TurnOnce(s0.rr, |s.dqs|, s.drawn, k, i);
  }

  lemma RunSends(s0: State, acts: seq<Action>, s: State, task: nat)
    requires Init(s0) && Run(Next, s0, acts, s) && task < s.pushes
    ensures |s.drawOf| == |s.sentTo| == s.pushes && s.drawOf[task] < |s.drawn|
    ensures s.sentTo[task] == s.drawn[s.drawOf[task]]
    ensures forall x :: 0 <= x < s.pushes && s.drawOf[x] == s.drawOf[task] ==> x == task
    ensures task in s.place && s.place[task].Queued? ==> s.sentTo[task] == s.place[task].who
  {
    RunGoesRound(s0, acts, s);
  }

  lemma QueuedWhere(s: State, task: nat, i: nat)
    requires Places(s) && i < |s.dqs| && task in s.dqs[i]
    ensures task in s.place && s.place[task] == Queued(i)
  {
    assert DequeOk(s, i);
  }

  /** Every task was pushed to the deque of a draw that is its own, and while it is queued it is there. */
  lemma PushedWhereDrawn(s0: State, acts: seq<Action>, s: State, task: nat)
    requires Init(s0) && Run(Next, s0, acts, s) && task < s.pushes
    ensures |s.drawOf| == |s.sentTo| == s.pushes && s.drawOf[task] < |s.drawn|
    ensures s.sentTo[task] == s.drawn[s.drawOf[task]]
    ensures forall x :: 0 <= x < s.pushes && s.drawOf[x] == s.drawOf[task] ==> x == task
    ensures forall i :: 0 <= i < |s.dqs| && task in s.dqs[i] ==> i == s.sentTo[task]
  {
    RunSends(s0, acts, s, task);
    Reachable(s0, acts, s);
    forall i | 0 <= i < |s.dqs| && task in s.dqs[i] ensures i == s.sentTo[task] {
      QueuedWhere(s, task, i);
    }
  }

  lemma AllSent(s0: State, acts: seq<Action>, s: State, i: nat)
    requires Init(s0) && Run(Next, s0, acts, s)
    requires forall u :: 0 <= u < |s.submitters| ==> !s.submitters[u].Chosen?
    ensures |s.sentTo| == s.pushes && Count(i, s.sentTo) == Count(i, s.drawn)
  {
    RunGoesRound(s0, acts, s);
    assert NoneLost(s, i);
    SumZero(DrewOf(i), s.submitters);
  }

  lemma PushesCounted(s0: State, acts: seq<Action>, s: State, i: nat)
    requires Init(s0) && Run(Next, s0, acts, s) && i < |s.dqs|
    requires forall u :: 0 <= u < |s.submitters| ==> !s.submitters[u].Chosen?
    ensures Count(i, s.sentTo) == Below(|s.dqs|, s0.rr + |s.drawn|, i) - Below(|s.dqs|, s0.rr, i)
  {
    AllSent(s0, acts, s, i);
    RunDraws(s0, acts, s);
    CountRound(s0.rr, |s.dqs|, s.drawn, i);
  }

  /**
    Once no submit is between its draw and its push, the tasks pushed to any two deques
    differ in number by one at most, whatever the order of the pushes.
   */
  lemma PushesAreBalanced(s0: State, acts: seq<Action>, s: State, i: nat, j: nat)
    requires Init(s0) && Run(Next, s0, acts, s) && i < |s.dqs| && j < |s.dqs|
    requires forall u :: 0 <= u < |s.submitters| ==> !s.submitters[u].Chosen?
    ensures |s.sentTo| == s.pushes && Count(i, s.sentTo) <= Count(j, s.sentTo) + 1
  {
    AllSent(s0, acts, s, i);
    PushesCounted(s0, acts, s, i);
    PushesCounted(s0, acts, s, j);
    BelowEven(|s.dqs|, s0.rr, |s.drawn|, i, j);
  }

  // ---------- progress ----------

  function WorkerWeightOf(n: nat, pc: WorkerPc): nat {
    match pc
    case Local => 1
    case Head => 2
    case NoTaskZero => 3
    case NoTask => 4
    case Ran => 5
    case Running(_) => 6
    case Stealing(k) => 7 + if k <= n then n - k else 0
    case Gone => 0
  }

  function WorkerWeight(n: nat): WorkerPc -> nat {
    pc => WorkerWeightOf(n, pc)
  }

  /** Work still to do, counting how far each worker is from its deque. */
  function Work(s: State): nat {
    (|s.dqs| + 7) * QueuedTasks(s) + Sum(WorkerWeight(|s.dqs|), s.workers)
  }

  /** The steps of workers that bring the end nearer. */
  ghost predicate Helpful(s: State, a: Action, t: State) {
    Next(s, a, t) && Inv(s) && !s.stop && t.destructor == s.destructor && t.submitters == s.submitters
    && t.waits == s.waits && t.left == s.left && t.orderly == s.orderly && t.stop == s.stop && t.pushes == s.pushes
    && Work(t) < Work(s)
  }

  lemma WorkerMoves(s: State, w: nat, t: State)
    requires Inv(s) && w < |s.workers| == |t.workers| && t.workers == s.workers[w := t.workers[w]]
    requires t.dqs == s.dqs
    requires WorkerWeight(|s.dqs|)(t.workers[w]) < WorkerWeight(|s.dqs|)(s.workers[w])
    ensures Work(t) < Work(s)
  {
    SumUpdate(WorkerWeight(|s.dqs|), s.workers, w, t.workers[w]);
  }

  lemma TakeHelps(s: State, w: nat, t: State)
    requires Inv(s) && Next(s, PopLocal(w), t) && s.dqs[w] != []
    ensures Work(t) < Work(s)
  {
    SumUpdate(WorkerWeight(|s.dqs|), s.workers, w, t.workers[w]);
    SumUpdate(Length, s.dqs, w, t.dqs[w]);
    OneFewer(|s.dqs| + 7, QueuedTasks(s), QueuedTasks(t));
  }

  lemma OneFewer(k: nat, before: nat, after: nat)
    requires before == after + 1
    ensures k * before == k * after + k
  {
  }

  /** A worker's step that finds nothing, or finishes what it holds. */
  predicate Advances(s: State, a: Action) {
    match a
    case TestStop(_) => true
    case Steal(w, v) => v == w
    case GiveUp(_) => true
    case RunTask(_) => true
    case Decrement(_) => true
    case LoadPending(_) => true
    case LoadStop(_) => true
    case _ => false
  }

  lemma AdvanceHelps(s: State, a: Action)
    requires Inv(s) && !s.stop && Enabled(s, a) && Advances(s, a)
    ensures Helpful(s, a, Apply(s, a))
  {
    AdvanceWeight(s, a);
    WorkerMoves(s, a.w, Apply(s, a));
  }

  lemma AdvanceWeight(s: State, a: Action)
    requires !s.stop && Enabled(s, a) && Advances(s, a)
    ensures var t := Apply(s, a);
      && a.w < |s.workers| == |t.workers| && t.dqs == s.dqs && t.workers == s.workers[a.w := t.workers[a.w]]
      && WorkerWeightOf(|s.dqs|, t.workers[a.w]) < WorkerWeightOf(|s.dqs|, s.workers[a.w])
  {
  }

  lemma PopHelps(s: State, w: nat)
    requires Inv(s) && !s.stop && Enabled(s, PopLocal(w)) && s.dqs[w] != []
    ensures Helpful(s, PopLocal(w), Apply(s, PopLocal(w)))
  {
    TakeHelps(s, w, Apply(s, PopLocal(w)));
  }

  /** The step of the owner of a deque that is not empty. */
  lemma OwnerHelps(s: State, w: nat) returns (a: Action)
    requires Inv(s) && !s.stop && w < |s.dqs| && s.dqs[w] != []
    ensures Enabled(s, a) && Helpful(s, a, Apply(s, a))
  {
    assert WorkerOk(s, w);
    if s.workers[w] == Local {
      a := PopLocal(w);
      PopHelps(s, w);
    } else {
      a := match s.workers[w]
        case Head => TestStop(w)
        case NoTaskZero => LoadStop(w)
        case NoTask => LoadPending(w)
        case Running(_) => RunTask(w)
        case Ran => Decrement(w)
        case Stealing(k) => if k < |s.dqs| then Steal(w, w) else GiveUp(w)
        case _ => GiveUp(w);
      AdvanceHelps(s, a);
    }
  }

  /** While anything is queued or held, some worker can take a helpful step. */
  lemma SomeoneHelps(s: State) returns (a: Action)
    requires Inv(s) && !s.stop && !NothingQueuedOrHeld(s)
    ensures Enabled(s, a) && Helpful(s, a, Apply(s, a))
  {
    if w :| 0 <= w < |s.workers| && Holds(s.workers[w]) != 0 {
      a := if s.workers[w].Running? then RunTask(w) else Decrement(w);
      AdvanceHelps(s, a);
    } else {
      var w :| 0 <= w < |s.dqs| && s.dqs[w] != [];
      a := OwnerHelps(s, w);
    }
  }

  /** From any state before the stop, the workers can finish everything that was pushed. */
  lemma CanAlwaysDrain(s0: State, before: seq<Action>, s: State) returns (acts: seq<Action>, t: State)
    requires Init(s0) && Run(Next, s0, before, s) && !s.stop
    ensures Run(Next, s, acts, t) && NothingQueuedOrHeld(t) && AllExecutedOnce(t) && t.pushes == s.pushes
    ensures (AllSubmitted(s) ==> t.pending == 0) && t.pending <= 0
    ensures Inv(t) && !t.stop && t.destructor == s.destructor
  {
    Reachable(s0, before, s);
    var inv := (x: State) =>
      Inv(x) && !x.stop && x.pushes == s.pushes && x.submitters == s.submitters && x.left == s.left
      && x.destructor == s.destructor;
    forall x, a, y | inv(x) && Helpful(x, a, y) ensures inv(y) && Work(y) < Work(x) {
      StepInv(x, a, y);
    }
    acts, t := RunToRest(Helpful, inv, Work, s);
    if !NothingQueuedOrHeld(t) {
      var a := SomeoneHelps(t);
      assert false;
    }
    Weaken(Helpful, Next, s, acts, t);
    NothingLeftAllExecuted(t);
    SumZero(Length, t.dqs);
    SumZero(Holds, t.workers);
    SumZero(Uncounted, t.submitters);
  }

  // ---------- every schedule ----------

  /** The steps that bring a task from its submit to its decrement; the others are loads, tests and idle turns. */
  predicate Productive(s: State, a: Action)
    requires Enabled(s, a)
  {
    match a
    case Draw(_) => true
    case PushTask(_) => true
    case Increment(_) => true
    case PopLocal(w) => s.dqs[w] != []
    case Steal(w, v) => v != w && s.dqs[v] != []
    case RunTask(_) => true
    case Decrement(_) => true
    case _ => false
  }

  /** How many of the steps of a run are productive. */
  ghost function ProductiveSteps(s: State, acts: seq<Action>): nat
    decreases |acts|
  {
    if acts == [] || !Enabled(s, acts[0]) then 0
    else (if Productive(s, acts[0]) then 1 else 0) + ProductiveSteps(Apply(s, acts[0]), acts[1..])
  }

  /** Six steps for each submit to come, fewer for one under way. */
  function SubmitterToGo(pc: SubmitterPc, left: nat): nat {
    match pc
    case Ready => 6 * left
    case Chosen(_, _) => if left == 0 then 0 else 6 * left - 1
    case Pushed => if left == 0 then 0 else 6 * left - 5
  }

  /** Run and decrement for a task in hand. */
  function WorkerToGo(pc: WorkerPc): nat {
    match pc
    case Running(_) => 2
    case Ran => 1
    case _ => 0
  }

  function SubmittersToGo(s: State): seq<nat> {
    if |s.left| == |s.submitters|
    then seq(|s.submitters|, u requires 0 <= u < |s.submitters| => SubmitterToGo(s.submitters[u], s.left[u]))
    else []
  }

  function ToGo(s: State): nat {
    Sum(Identity, SubmittersToGo(s)) + 3 * Sum(Length, s.dqs) + Sum(WorkerToGo, s.workers)
  }

  ghost predicate Owing(s: State) { Shape(s) && SubmittersOk(s) }

  lemma OwingDraw(s: State, u: nat, t: State)
    requires Owing(s) && Next(s, Draw(u), t)
    ensures Owing(t)
  {
    var who := s.rr % |s.dqs|;
    assert 0 <= who < |s.dqs| && t.submitters == s.submitters[u := Chosen(who, |s.drawn|)];
  }

  lemma OwingSubmit(s: State, a: Action, t: State)
    requires Owing(s) && Next(s, a, t) && (a.PushTask? || a.Increment?)
    ensures Owing(t)
  {
  }

  lemma OwingKept(s: State, a: Action, t: State)
    requires Shape(s) && Next(s, a, t) && !a.Draw? && !a.PushTask? && !a.Increment?
    ensures Shape(t) && t.submitters == s.submitters && t.left == s.left && |t.dqs| == |s.dqs|
    ensures t.waits == s.waits
  {
    if WorkerAction(a) {
      WorkerLeavesAlone(s, a, t);
    }
  }

  lemma OwingStep(s: State, a: Action, t: State)
    requires Owing(s) && Next(s, a, t)
    ensures Owing(t)
  {
    if a.Draw? {
      OwingDraw(s, a.u, t);
    } else if a.PushTask? || a.Increment? {
      OwingSubmit(s, a, t);
    } else {
      OwingKept(s, a, t);
    }
  }

  lemma SubmitterPays(s: State, a: Action, t: State)
    requires Owing(s) && Next(s, a, t) && (a.Draw? || a.PushTask? || a.Increment?)
    ensures ToGo(t) + 1 == ToGo(s)
  {
    var x := SubmitterToGo(t.submitters[a.u], t.left[a.u]);
    assert SubmittersToGo(t) == SubmittersToGo(s)[a.u := x];
    SumUpdate(Identity, SubmittersToGo(s), a.u, x);
    if a.PushTask? {
      var who := s.submitters[a.u].who;
      SumUpdate(Length, s.dqs, who, t.dqs[who]);
    }
  }

  lemma TakePays(s: State, w: nat, from: nat, rest: seq<nat>, task: nat, t: State)
    requires Shape(s) && w < |s.workers| && from < |s.dqs| && |rest| + 1 == |s.dqs[from]|
    requires WorkerToGo(s.workers[w]) == 0 && t == Hold(s, w, task).(dqs := s.dqs[from := rest])
    ensures ToGo(t) + 1 == ToGo(s)
  {
    SumUpdate(Length, s.dqs, from, rest);
    SumUpdate(WorkerToGo, s.workers, w, Running(task));
    assert SubmittersToGo(t) == SubmittersToGo(s);
  }

  lemma WorkerPays(s: State, a: Action, t: State)
    requires Next(s, a, t) && WorkerAction(a) && !a.PopLocal? && !a.Steal?
    ensures ToGo(t) + (if Productive(s, a) then 1 else 0) == ToGo(s)
  {
    SumUpdate(WorkerToGo, s.workers, a.w, t.workers[a.w]);
    assert SubmittersToGo(t) == SubmittersToGo(s);
  }

  lemma SearchPays(s: State, a: Action, t: State)
    requires Next(s, a, t) && (a.PopLocal? || a.Steal?)
    ensures ToGo(t) + (if Productive(s, a) then 1 else 0) == ToGo(s)
  {
    if !Productive(s, a) {
      SumUpdate(WorkerToGo, s.workers, a.w, t.workers[a.w]);
      assert SubmittersToGo(t) == SubmittersToGo(s);
    } else if a.PopLocal? {
      var dq := s.dqs[a.w];
      TakePays(s, a.w, a.w, dq[..|dq| - 1], dq[|dq| - 1], t);
    } else {
      var dq := s.dqs[a.victim];
      TakePays(s, a.w, a.victim, dq[1..], dq[0], t);
    }
  }

  lemma StepPays(s: State, a: Action, t: State)
    requires Owing(s) && Next(s, a, t)
    ensures ToGo(t) + (if Productive(s, a) then 1 else 0) == ToGo(s)
  {
    if a.Draw? || a.PushTask? || a.Increment? {
      SubmitterPays(s, a, t);
    } else if a.PopLocal? || a.Steal? {
      SearchPays(s, a, t);
    } else if a.BeginDestroy? || a.TestDrained? || a.SetStop? || a.Join? {
      assert SubmittersToGo(t) == SubmittersToGo(s);
    } else {
      WorkerPays(s, a, t);
    }
  }

  lemma {:induction false} RunPays(s0: State, acts: seq<Action>, s: State)
    requires Owing(s0) && Run(Next, s0, acts, s)
    ensures ProductiveSteps(s0, acts) + ToGo(s) == ToGo(s0)
    decreases |acts|
  {
    if acts != [] {
      var m :| Next(s0, acts[0], m) && Run(Next, m, acts[1..], s);
      StepPays(s0, acts[0], m);
      OwingStep(s0, acts[0], m);
      RunPays(m, acts[1..], s);
    }
  }

  lemma {:induction false} SixEach(left: seq<nat>, prices: seq<nat>)
    requires |prices| == |left| && forall u :: 0 <= u < |left| ==> prices[u] == 6 * left[u]
    ensures Sum(Identity, prices) == 6 * Sum(Identity, left)
  {
    if left != [] {
      SixEach(left[1..], prices[1..]);
    }
  }

  /** Nothing left to submit, queued, in hand or uncounted. */
  ghost predicate AllDone(s: State) {
    AllSubmitted(s) && NothingQueuedOrHeld(s)
  }

  /**
    On every schedule each submit takes exactly six productive steps (draw, push, count,
    take, run, count down), so no schedule has more than six a submit, and one has all of
    them exactly if it has submitted, run and counted everything.
   */
  lemma ProductiveStepsAreExact(s0: State, acts: seq<Action>, s: State)
    requires Init(s0) && Run(Next, s0, acts, s)
    ensures ProductiveSteps(s0, acts) + ToGo(s) == 6 * Sum(Identity, s0.left)
    ensures ProductiveSteps(s0, acts) == 6 * Sum(Identity, s0.left) <==> AllDone(s)
  {
    RunPays(s0, acts, s);
    SixEach(s0.left, SubmittersToGo(s0));
    SumZero(Length, s0.dqs);
    SumZero(WorkerToGo, s0.workers);
    RunOwes(s0, acts, s);
    NothingToGo(s);
  }

  lemma RunOwes(s0: State, acts: seq<Action>, s: State)
    requires Init(s0) && Run(Next, s0, acts, s)
    ensures Owing(s)
  {
    forall x, a, y | Owing(x) && Next(x, a, y) ensures Owing(y) { OwingStep(x, a, y); }
    RunInvariant(Next, Owing, s0, acts, s);
  }

  lemma NothingToGo(s: State)
    requires Owing(s)
    ensures ToGo(s) == 0 <==> AllDone(s)
  {
    SumZero(Identity, SubmittersToGo(s));
    SumZero(Length, s.dqs);
    SumZero(WorkerToGo, s.workers);
    forall u | 0 <= u < |s.submitters|
      ensures SubmittersToGo(s)[u] == 0 <==> s.submitters[u] == Ready && s.left[u] == 0
    {
    }
  }

  // ---------- destruction too early ----------

  /** Submitter u, between its push and its increment. */
  lemma SubmitHalfDone(s0: State, u: nat) returns (acts: seq<Action>, s: State)
    requires Init(s0) && u < |s0.submitters| && s0.left[u] > 0
    ensures Run(Next, s0, acts, s)
    ensures Shape(s) && s.pushes == 1 && s.executed == [] && s.pending == 0 && s.destructor == NotBegun
    ensures s.workers == s0.workers && u < |s.submitters| && s.submitters[u] == Pushed && s.waits == s0.waits
  {
    var s1 := Apply(s0, Draw(u));
    s := Apply(s1, PushTask(u));
    Single(Next, s1, PushTask(u), s);
    acts := [Draw(u)] + [PushTask(u)];
    Prepend(Next, s0, Draw(u), s1, [PushTask(u)], s);
  }

  lemma DrainZero(s: State) returns (acts: seq<Action>, t: State)
    requires Shape(s) && s.pending == 0 && s.destructor == NotBegun && !s.waits
    ensures Run(Next, s, acts, t)
    ensures t == s.(destructor := Joining(0), orderly := AllSubmitted(s), stop := true)
  {
    var s1 := Apply(s, BeginDestroy);
    var s2 := Apply(s1, TestDrained);
    t := Apply(s2, SetStop);
    Single(Next, s2, SetStop, t);
    Prepend(Next, s1, TestDrained, s2, [SetStop], t);
    acts := [BeginDestroy] + ([TestDrained] + [SetStop]);
    Prepend(Next, s, BeginDestroy, s1, [TestDrained] + [SetStop], t);
  }

  /** Once stop is set a worker at the head of its loop leaves without looking at its deque. */
  lemma {:induction false} WorkersLeave(s: State, k: nat) returns (acts: seq<Action>, t: State)
    requires Shape(s) && s.stop && k <= |s.workers| && s.destructor == Joining(k)
    requires forall w :: 0 <= w < |s.workers| ==> s.workers[w] == if w < k then Gone else Head
    ensures Run(Next, s, acts, t) && t.destructor == Destroyed
    ensures t.executed == s.executed && t.pushes == s.pushes && t.orderly == s.orderly
    decreases |s.workers| - k
  {
    if k == |s.workers| {
      t := Apply(s, Join);
      acts := [Join];
      Single(Next, s, Join, t);
    } else {
      var s1 := Apply(s, TestStop(k));
      var s2 := Apply(s1, Join);
      var rest;
      rest, t := WorkersLeave(s2, k + 1);
      Prepend(Next, s1, Join, s2, rest, t);
      acts := [TestStop(k)] + ([Join] + rest);
      Prepend(Next, s, TestStop(k), s1, [Join] + rest, t);
    }
  }

  /**
    Destruction that overlaps a submit can lose its task, whatever the number of workers
    and whoever submits: the counter reads zero between the push and the increment.
   */
  lemma DisorderlyDestructionLosesTask(s0: State, u: nat) returns (acts: seq<Action>, s: State)
    requires Init(s0) && !s0.waits && u < |s0.submitters| && s0.left[u] > 0
    ensures Run(Next, s0, acts, s) && s.destructor == Destroyed && !s.orderly
    ensures s.pushes == 1 && s.executed == [] && !AllExecutedOnce(s)
  {
    var a1, s1 := SubmitHalfDone(s0, u);
    var a2, s2 := DrainZero(s1);
    var a3;
    a3, s := WorkersLeave(s2, 0);
    Concat(Next, s1, a2, s2, a3, s);
    Concat(Next, s0, a1, s1, a2 + a3, s);
    acts := a1 + (a2 + a3);
    assert 0 < s.pushes && 0 !in s.executed;
  }

  /** With a program that waits, or that has nothing to submit, every destruction is orderly. */
  ghost predicate Patient(s: State) {
    && (s.waits || AllSubmitted(s)) && |s.left| == |s.submitters|
    && (s.destructor != NotBegun ==> s.orderly)
  }

  lemma PatientStep(s: State, a: Action, t: State)
    requires Shape(s) && Patient(s) && Next(s, a, t)
    requires s.orderly ==> AllSubmitted(s)
    ensures Patient(t)
  {
    if !a.Draw? && !a.PushTask? && !a.Increment? {
      OwingKept(s, a, t);
    }
  }

  lemma PatientIsOrderly(s0: State, acts: seq<Action>, s: State)
    requires Init(s0) && (s0.waits || AllSubmitted(s0)) && Run(Next, s0, acts, s) && s.destructor == Destroyed
    ensures AllExecutedOnce(s)
  {
    InitInv(s0);
    var inv := (x: State) => Inv(x) && Patient(x);
    forall x, a, y | inv(x) && Next(x, a, y) ensures inv(y) {
      StepInv(x, a, y);
      PatientStep(x, a, y);
    }
    RunInvariant(Next, inv, s0, acts, s);
    OrderlyDestructionDrains(s0, acts, s);
  }

  /** No run loses a task exactly if destruction waits for the clients or there is nothing to submit. */
  lemma NoTaskLostExactly(s0: State)
    requires Init(s0)
    ensures s0.waits || AllSubmitted(s0) <==>
      forall acts, s :: Run(Next, s0, acts, s) && s.destructor == Destroyed ==> AllExecutedOnce(s)
  {
    if s0.waits || AllSubmitted(s0) {
      forall acts, s | Run(Next, s0, acts, s) && s.destructor == Destroyed ensures AllExecutedOnce(s) {
        PatientIsOrderly(s0, acts, s);
      }
    } else {
      var u :| 0 <= u < |s0.submitters| && s0.left[u] > 0;
      var acts, s := DisorderlyDestructionLosesTask(s0, u);
      assert Run(Next, s0, acts, s) && s.destructor == Destroyed && !AllExecutedOnce(s);
    }
  }

  // ---------- destruction completes ----------

  /** A worker's steps once stop is set. */
  ghost predicate Leaving(s: State, a: Action, t: State) {
    Next(s, a, t) && s.stop && WorkerAction(a)
  }

  /** How far a worker is from leaving: a task in hand is still run, and none is waited for. */
  function LeaveWeightOf(n: nat, pc: WorkerPc): nat {
    match pc
    case Gone => 0
    case Head => 1
    case Ran => 2
    case NoTaskZero => 2
    case Running(_) => 3
    case NoTask => 3
    case Stealing(k) => 4 + if k <= n then n - k else 0
    case Local => 5 + n
  }

  function LeaveWeight(n: nat): WorkerPc -> nat { pc => LeaveWeightOf(n, pc) }

  function ToLeave(s: State): nat { Sum(LeaveWeight(|s.dqs|), s.workers) }

  lemma LeavingMove(s: State, a: Action, t: State)
    requires Leaving(s, a, t)
    ensures t.stop && t.destructor == s.destructor && |t.dqs| == |s.dqs|
    ensures a.w < |s.workers| && t.workers == s.workers[a.w := t.workers[a.w]]
    ensures LeaveWeightOf(|s.dqs|, t.workers[a.w]) < LeaveWeightOf(|s.dqs|, s.workers[a.w])
  {
  }

  lemma LeavingPays(s: State, a: Action, t: State)
    requires Leaving(s, a, t)
    ensures ToLeave(t) < ToLeave(s) && t.stop && t.destructor == s.destructor
  {
    LeavingMove(s, a, t);
    SumUpdate(LeaveWeight(|s.dqs|), s.workers, a.w, t.workers[a.w]);
  }

  lemma LeavingStep(s: State, w: nat) returns (a: Action, t: State)
    requires Inv(s) && s.stop && w < |s.workers| && s.workers[w] != Gone
    ensures Leaving(s, a, t)
  {
    assert WorkerOk(s, w);
    a := match s.workers[w]
      case Head => TestStop(w)
      case Local => PopLocal(w)
      case Stealing(k) => if k < |s.dqs| then Steal(w, w) else GiveUp(w)
      case Running(_) => RunTask(w)
      case Ran => Decrement(w)
      case NoTask => LoadPending(w)
      case NoTaskZero => LoadStop(w)
      case Gone => TestStop(w);
    t := Apply(s, a);
  }

  lemma AllLeave(s: State) returns (acts: seq<Action>, t: State)
    requires Inv(s) && s.stop
    ensures Run(Next, s, acts, t) && Inv(t) && t.stop && t.destructor == s.destructor
    ensures forall w :: 0 <= w < |t.workers| ==> t.workers[w] == Gone
  {
    var inv := (x: State) => Inv(x) && x.stop && x.destructor == s.destructor;
    forall x, a, y | inv(x) && Leaving(x, a, y) ensures inv(y) && ToLeave(y) < ToLeave(x) {
      StepInv(x, a, y);
      LeavingPays(x, a, y);
    }
    acts, t := RunToRest(Leaving, inv, ToLeave, s);
    Weaken(Leaving, Next, s, acts, t);
    forall w | 0 <= w < |t.workers| ensures t.workers[w] == Gone {
      if t.workers[w] != Gone {
        var a, u := LeavingStep(t, w);
        assert false;
      }
    }
  }

  lemma {:induction false} JoinAll(s: State, k: nat) returns (acts: seq<Action>, t: State)
    requires Shape(s) && k <= |s.workers| && s.destructor == Joining(k)
    requires forall w :: 0 <= w < |s.workers| ==> s.workers[w] == Gone
    ensures Run(Next, s, acts, t) && t.destructor == Destroyed
    decreases |s.workers| - k
  {
    var m := Apply(s, Join);
    if k == |s.workers| {
      acts, t := [Join], m;
      Single(Next, s, Join, m);
    } else {
      var rest;
      rest, t := JoinAll(m, k + 1);
      acts := [Join] + rest;
      Prepend(Next, s, Join, m, rest, t);
    }
  }

  /** From the stop on, the destructor's joins can all return. */
  lemma StoppedCompletes(s: State) returns (acts: seq<Action>, t: State)
    requires Inv(s) && s.destructor.Joining?
    ensures Run(Next, s, acts, t) && t.destructor == Destroyed
  {
    var leave, m := AllLeave(s);
    var join;
    join, t := JoinAll(m, m.destructor.next);
    acts := leave + join;
    Concat(Next, s, leave, m, join, t);
  }

  lemma DrainedCompletes(s: State) returns (acts: seq<Action>, t: State)
    requires Inv(s) && (s.destructor == Stopping || (s.destructor == Draining && s.pending <= 0))
    ensures Run(Next, s, acts, t) && t.destructor == Destroyed
    decreases s.destructor == Draining
  {
    var a := if s.destructor == Stopping then SetStop else TestDrained;
    var m := Apply(s, a);
    StepInv(s, a, m);
    var rest;
    if a.SetStop? {
      rest, t := StoppedCompletes(m);
    } else {
      rest, t := DrainedCompletes(m);
    }
    acts := [a] + rest;
    Prepend(Next, s, a, m, rest, t);
  }

  /** Once begun, orderly or not, destruction can always be completed. */
  lemma DestructionCanComplete(s0: State, before: seq<Action>, s: State) returns (acts: seq<Action>, t: State)
    requires Init(s0) && Run(Next, s0, before, s) && s.destructor != NotBegun
    ensures Run(Next, s, acts, t) && t.destructor == Destroyed
  {
    Reachable(s0, before, s);
    match s.destructor {
      case Draining =>
        var drain, m := CanAlwaysDrain(s0, before, s);
        var rest;
        rest, t := DrainedCompletes(m);
        acts := drain + rest;
        Concat(Next, s, drain, m, rest, t);
      case Stopping => acts, t := DrainedCompletes(s);
      case Joining(_) => acts, t := StoppedCompletes(s);
      case Destroyed => acts, t := [], s;
    }
  }

  // ---------- the pool, in place ----------

  /** The deques, the atomics and each thread's position, updated in place by one method a step. */
  class Pool {
    const waits: bool
    var dqs: seq<seq<nat>>
    var workers: seq<WorkerPc>
    var pending: int
    var stop: bool
    var submitters: seq<SubmitterPc>
    var left: seq<nat>
    var rr: nat
    var destructor: DestructorPc
    var pushes: nat
    var executed: seq<nat>
    var drawn: seq<nat>   // history: no branch depends on it
    ghost var orderly: bool
    ghost var place: map<nat, Place>
    ghost var drawOf: seq<nat>
    ghost var sentTo: seq<nat>

    ghost function Snapshot(): State
      reads this
    {
      State(waits, dqs, workers, pending, stop, submitters, left, rr, destructor, orderly,
            pushes, place, executed, drawn, drawOf, sentTo)
    }

    ghost predicate Valid()
      reads this
    {
      Inv(Snapshot())
    }

    /** n workers, and one client for each entry of `jobs`, which is what it will submit. */
    constructor (n: nat, jobs: seq<nat>, waits: bool)
      requires n > 0
      ensures Init(Snapshot()) && Valid() && |dqs| == n && left == jobs && this.waits == waits
    {
      this.waits := waits;
      dqs, workers := seq(n, _ => []), seq(n, _ => Head);
      submitters, left, rr := seq(|jobs|, _ => Ready), jobs, 0;
      pending, stop, destructor, orderly := 0, false, NotBegun, false;
      pushes, place, executed := 0, map[], [];
      drawn, drawOf, sentTo := [], [], [];
      new;
      InitInv(Snapshot());
    }

    method TestStop(w: nat) returns (go: bool)
      requires Valid() && Enabled(Snapshot(), Action.TestStop(w))
      modifies `workers
      ensures Valid() && Snapshot() == Apply(old(Snapshot()), Action.TestStop(w))
      ensures go <==> !stop
      ensures workers == old(workers)[w := if stop then Gone else Local]
    {
      ghost var before := Snapshot();
      go := !stop;
      workers := workers[w := if go then Local else Gone];
      StepInv(before, Action.TestStop(w), Snapshot());
    }

    /** Worker w has the task that was taken off deque `from`. */
    method Grab(w: nat, from: nat, task: nat, rest: seq<nat>)
      requires w < |workers| && from < |dqs|
      modifies `dqs, `workers, `place
      ensures Snapshot() == Hold(old(Snapshot()), w, task).(dqs := old(dqs)[from := rest])
      ensures dqs == old(dqs)[from := rest] && workers == old(workers)[w := Running(task)]
      ensures place == old(place)[task := Held(w)]
    {
      dqs := dqs[from := rest];
      workers := workers[w := Running(task)];
      place := place[task := Held(w)];
    }

    /** pop_local: LIFO from the back of the own deque. */
    method PopLocal(w: nat) returns (found: bool, task: nat)
      requires Valid() && Enabled(Snapshot(), Action.PopLocal(w))
      modifies `dqs, `workers, `place
      ensures Valid() && Snapshot() == Apply(old(Snapshot()), Action.PopLocal(w))
      ensures found <==> old(dqs)[w] != []
      ensures found ==> old(dqs)[w] == dqs[w] + [task]
      ensures found ==> workers == old(workers)[w := Running(task)] && place == old(place)[task := Held(w)]
      ensures found ==> dqs == old(dqs)[w := dqs[w]]
      ensures !found ==> workers == old(workers)[w := Stealing(0)] && dqs == old(dqs) && place == old(place)
    {
      ghost var before := Snapshot();
      var dq := dqs[w];
      found, task := dq != [], 0;
      if found {
        task := dq[|dq| - 1];
        Grab(w, w, task, dq[..|dq| - 1]);
      } else {
        workers := workers[w := Stealing(0)];
      }
      StepInv(before, Action.PopLocal(w), Snapshot());
    }

    /** steal_from: FIFO from the front of the victim's deque; one pass of the stealing loop. */
    method Steal(w: nat, victim: nat) returns (found: bool, task: nat)
      requires Valid() && Enabled(Snapshot(), Action.Steal(w, victim))
      modifies `dqs, `workers, `place
      ensures Valid() && Snapshot() == Apply(old(Snapshot()), Action.Steal(w, victim))
      ensures found <==> victim != w && old(dqs)[victim] != []
      ensures found ==> old(dqs)[victim] == [task] + dqs[victim]
      ensures found ==> workers == old(workers)[w := Running(task)] && place == old(place)[task := Held(w)]
      ensures found ==> dqs == old(dqs)[victim := dqs[victim]]
      ensures !found ==> workers == old(workers)[w := Stealing(old(workers)[w].tries + 1)]
      ensures !found ==> dqs == old(dqs) && place == old(place)
    {
      ghost var before := Snapshot();
      var dq := dqs[victim];
      found, task := victim != w && dq != [], 0;
      if found {
        task := dq[0];
        Grab(w, victim, task, dq[1..]);
      } else {
        workers := workers[w := Stealing(workers[w].tries + 1)];
      }
      StepInv(before, Action.Steal(w, victim), Snapshot());
    }

    /** t(). */
    method RunTask(w: nat)
      requires Valid() && Enabled(Snapshot(), Action.RunTask(w))
      modifies `workers, `place, `executed
      ensures Valid() && Snapshot() == Apply(old(Snapshot()), Action.RunTask(w))
      ensures old(workers)[w].task !in old(executed)
      ensures executed == old(executed) + [old(workers)[w].task] && workers == old(workers)[w := Ran]
      ensures place == old(place)[old(workers)[w].task := Executed]
    {
      ghost var before := Snapshot();
      var task := workers[w].task;
      assert WorkerOk(before, w);
      executed := executed + [task];
      workers := workers[w := Ran];
      place := place[task := Executed];
      StepInv(before, Action.RunTask(w), Snapshot());
    }

    /** The end of the stealing loop and the accesses to the atomics, on the fields. */
    method Turn(a: Action)
      requires a.GiveUp? || a.Decrement? || a.LoadPending? || a.LoadStop?
      requires Enabled(Snapshot(), a)
      modifies `workers, `pending
      ensures Snapshot() == Apply(old(Snapshot()), a)
    {
      match a {
        case GiveUp(w) =>
          workers := workers[w := NoTask];
        case Decrement(w) =>
          pending := pending - 1;
          workers := workers[w := Head];
        case LoadPending(w) =>
          workers := workers[w := if pending == 0 then NoTaskZero else Head];
        case LoadStop(w) =>
          workers := workers[w := if stop then Gone else Head];
      }
    }

    /** The rest of worker_loop: the end of the stealing loop and the accesses to the atomics. */
    method WorkerStep(a: Action)
      requires a.GiveUp? || a.Decrement? || a.LoadPending? || a.LoadStop?
      requires Valid() && Enabled(Snapshot(), a)
      modifies `workers, `pending
      ensures Valid() && Snapshot() == Apply(old(Snapshot()), a)
      ensures a.GiveUp? ==> workers == old(workers)[a.w := NoTask]
      ensures a.Decrement? ==> workers == old(workers)[a.w := Head]
      ensures a.LoadPending? ==> workers == old(workers)[a.w := if pending == 0 then NoTaskZero else Head]
      ensures a.LoadStop? ==> workers == old(workers)[a.w := if stop then Gone else Head]
      ensures pending == if a.Decrement? then old(pending) - 1 else old(pending)
    {
      ghost var before := Snapshot();
      Turn(a);
      StepInv(before, a, Snapshot());
    }

    /** submit, in its three steps: draw a deque, push under its lock, count. */
    method Draw(u: nat)
      requires Valid() && Enabled(Snapshot(), Action.Draw(u))
      modifies `submitters, `rr, `drawn
      ensures Valid() && Snapshot() == Apply(old(Snapshot()), Action.Draw(u))
      ensures submitters == old(submitters)[u := Chosen(old(rr) % |dqs|, |old(drawn)|)]
      ensures rr == old(rr) + 1 && drawn == old(drawn) + [old(rr) % |dqs|]
    {
      ghost var before := Snapshot();
      var who := rr % |dqs|;
      submitters := submitters[u := Chosen(who, |drawn|)];
      rr, drawn := rr + 1, drawn + [who];
      StepInv(before, Action.Draw(u), Snapshot());
    }

    /** The task goes to the back of the deque that the submit has drawn. */
    method PushBack(u: nat)
      requires Enabled(Snapshot(), Action.PushTask(u))
      modifies `dqs, `submitters, `pushes, `place, `drawOf, `sentTo
      ensures Snapshot() == Apply(old(Snapshot()), Action.PushTask(u))
    {
      var who := submitters[u].who;
      Record(who, submitters[u].draw);
      dqs := dqs[who := dqs[who] + [pushes]];
      pushes, submitters := pushes + 1, submitters[u := Pushed];
    }

    /** Where the task about to be pushed goes, and by which draw. */
    ghost method Record(who: nat, draw: nat)
      modifies `place, `drawOf, `sentTo
      ensures place == old(place)[pushes := Queued(who)]
      ensures drawOf == old(drawOf) + [draw] && sentTo == old(sentTo) + [who]
    {
      drawOf, sentTo, place := drawOf + [draw], sentTo + [who], place[pushes := Queued(who)];
    }

    method PushTask(u: nat)
      requires Valid() && Enabled(Snapshot(), Action.PushTask(u))
      modifies `dqs, `submitters, `pushes, `place, `drawOf, `sentTo
      ensures Valid() && Snapshot() == Apply(old(Snapshot()), Action.PushTask(u))
      ensures var who := old(submitters)[u].who; dqs == old(dqs)[who := old(dqs)[who] + [old(pushes)]]
      ensures submitters == old(submitters)[u := Pushed] && pushes == old(pushes) + 1
      ensures place == old(place)[old(pushes) := Queued(old(submitters)[u].who)]
      ensures sentTo == old(sentTo) + [old(submitters)[u].who] && drawOf == old(drawOf) + [old(submitters)[u].draw]
    {
      ghost var before := Snapshot();
      PushBack(u);
      StepInv(before, Action.PushTask(u), Snapshot());
    }

    method Increment(u: nat)
      requires Valid() && Enabled(Snapshot(), Action.Increment(u))
      modifies `submitters, `left, `pending
      ensures Valid() && Snapshot() == Apply(old(Snapshot()), Action.Increment(u))
      ensures submitters == old(submitters)[u := Ready] && pending == old(pending) + 1
      ensures left == old(left)[u := old(left)[u] - 1]
    {
      ghost var before := Snapshot();
      pending := pending + 1;
      left := left[u := left[u] - 1];
      submitters := submitters[u := Ready];
      StepInv(before, Action.Increment(u), Snapshot());
    }

    /** One step of the destructor. */
    method Advance(a: Action)
      requires a.BeginDestroy? || a.TestDrained? || a.SetStop? || a.Join?
      requires Enabled(Snapshot(), a)
      modifies `stop, `destructor, `orderly
      ensures Snapshot() == Apply(old(Snapshot()), a)
      ensures stop == (old(stop) || a.SetStop?)
      ensures orderly <==> if a.BeginDestroy? then AllSubmitted(Snapshot()) else old(orderly)
      ensures a.BeginDestroy? ==> destructor == Draining
      ensures a.TestDrained? ==> destructor == if pending > 0 then Draining else Stopping
      ensures a.SetStop? ==> destructor == Joining(0)
      ensures a.Join? ==> var k := old(destructor).next;
        destructor == if k < |workers| then Joining(k + 1) else Destroyed
    {
      match a {
        case BeginDestroy =>
          orderly := AllSubmitted(Snapshot());
          destructor := Draining;
        case TestDrained =>
          if !(pending > 0) {
            destructor := Stopping;
          }
        case SetStop =>
          stop := true;
          destructor := Joining(0);
        case Join =>
          destructor := if destructor.next < |workers| then Joining(destructor.next + 1) else Destroyed;
      }
    }

    /** The destructor: drain, stop, join. */
    method Destroy(a: Action)
      requires a.BeginDestroy? || a.TestDrained? || a.SetStop? || a.Join?
      requires Valid() && Enabled(Snapshot(), a)
      modifies `stop, `destructor, `orderly
      ensures Valid() && Snapshot() == Apply(old(Snapshot()), a)
      ensures destructor == Destroyed && orderly ==> AllExecutedOnce(Snapshot())
      ensures stop == (old(stop) || a.SetStop?)
      ensures orderly <==> if a.BeginDestroy? then AllSubmitted(Snapshot()) else old(orderly)
      ensures a.BeginDestroy? ==> destructor == Draining
      ensures a.TestDrained? ==> destructor == if pending > 0 then Draining else Stopping
      ensures a.SetStop? ==> destructor == Joining(0)
      ensures a.Join? ==> var k := old(destructor).next;
        destructor == if k < |workers| then Joining(k + 1) else Destroyed
      ensures a.Join? && old(destructor).next < |workers| ==> workers[old(destructor).next] == Gone
    {
      ghost var before := Snapshot();
      Advance(a);
      StepInv(before, a, Snapshot());
      DestroyedIsDone(Snapshot());
    }
  }
}
