/**
  The active object: an account whose balance only its own worker thread touches.

  Callers post deposits, withdrawals and balance queries to a queue and get a future;
  the worker runs them one at a time.  post notifies after releasing the lock.  With
  `waits` a caller waits on each future before its next call.  The destructor sets
  `done`, wakes and joins the worker; with `orderly` it begins only after every caller
  has finished, as the lifetime of the object demands.
 */
module ActiveObject {
  import opened Runs
  import opened Sums
  import opened Waiting

  datatype Op = Deposit(amount: int) | Withdraw(amount: int) | GetBalance

  datatype Result = Done | Paid(ok: bool) | Balance(value: int)

  datatype Message = Message(client: nat, op: Op)

  datatype WorkerPc = Ready | Asleep | Woken | Running(op: Op) | Gone

  /** `number` counts all posts: it tells which future the caller waits on. */
  datatype ClientPc = Calling | Notifying(number: nat) | Awaiting(number: nat)

  datatype DestructorPc = NotBegun | NotifyingAll | Joining | Destroyed

  /** `jobs` lists the calls each client makes; results[i] is the value of the i-th future. */
  datatype State = State(
    jobs: seq<seq<Op>>, waits: bool, orderly: bool,
    balance: int, q: seq<Message>, done: bool, results: seq<Result>,
    worker: WorkerPc, clients: seq<ClientPc>, next: seq<nat>, destructor: DestructorPc,
    posted: seq<Message>, sealed: nat)

  datatype Action =
    | Post(c: nat)
    | NotifyOne(c: nat)
    | Await(c: nat)
    | Fetch
    | RunJob
    | BeginDestroy
    | NotifyAll
    | Join
    | Spurious

  // ---------- the account, one operation after the other ----------

  function Effect(op: Op, balance: int): int {
    match op
    case Deposit(amount) => balance + amount
    case Withdraw(amount) => if balance >= amount then balance - amount else balance
    case GetBalance => balance
  }

  function Answer(op: Op, balance: int): Result {
    match op
    case Deposit(_) => Done
    case Withdraw(amount) => Paid(balance >= amount)
    case GetBalance => Balance(balance)
  }

  /** The balance after the messages of `log`, in that order. */
  function Replay(log: seq<Message>): int {
    if log == [] then 0 else Effect(log[|log| - 1].op, Replay(log[..|log| - 1]))
  }

  // ---------- the steps ----------

  predicate Shape(s: State) {
    && |s.next| == |s.clients| == |s.jobs|
    && forall c :: 0 <= c < |s.next| ==> s.next[c] <= |s.jobs[c]|
  }

  predicate CallersDone(s: State)
    requires Shape(s)
  {
    forall c :: 0 <= c < |s.clients| ==> s.clients[c] == Calling && s.next[c] == |s.jobs[c]|
  }

  predicate Enabled(s: State, a: Action) {
    && Shape(s)
    && match a
       case Post(c) =>
         && c < |s.clients| && s.clients[c] == Calling && s.next[c] < |s.jobs[c]| && s.destructor != Destroyed
       case NotifyOne(c) => c < |s.clients| && s.clients[c].Notifying?
       case Await(c) => c < |s.clients| && s.clients[c].Awaiting? && s.clients[c].number < |s.results|
       case Fetch => s.worker == Ready || s.worker == Woken
       case RunJob => s.worker.Running?
       case BeginDestroy => s.destructor == NotBegun && (s.orderly ==> CallersDone(s))
       case NotifyAll => s.destructor == NotifyingAll
       case Join => s.destructor == Joining && s.worker == Gone
       case Spurious => s.worker == Asleep
  }

  function Wake(worker: WorkerPc): WorkerPc { if worker == Asleep then Woken else worker }

  function Apply(s: State, a: Action): State
    requires Enabled(s, a)
  {
    match a
    case Post(c) =>
      var message := Message(c, s.jobs[c][s.next[c]]);
      s.(q := s.q + [message], posted := s.posted + [message],
         next := s.next[c := s.next[c] + 1], clients := s.clients[c := Notifying(|s.posted|)])
    case NotifyOne(c) =>
      var number := s.clients[c].number;
      s.(worker := Wake(s.worker), clients := s.clients[c := if s.waits then Awaiting(number) else Calling])
    case Await(c) => s.(clients := s.clients[c := Calling])
    case Fetch =>
      if !s.done && s.q == [] then s.(worker := Asleep)
      else if s.q == [] then s.(worker := Gone)
      else s.(worker := Running(s.q[0].op), q := s.q[1..])
    case RunJob =>
      var op := s.worker.op;
      s.(worker := Ready, balance := Effect(op, s.balance), results := s.results + [Answer(op, s.balance)])
    case BeginDestroy => s.(done := true, destructor := NotifyingAll, sealed := |s.posted|)
    case NotifyAll => s.(worker := Wake(s.worker), destructor := Joining)
    case Join => s.(destructor := Destroyed)
    case Spurious => s.(worker := Woken)
  }

  ghost predicate Next(s: State, a: Action, t: State) {
    Enabled(s, a) && t == Apply(s, a)
  }

  /** The steps other than spurious wakeups. */
  ghost predicate Proper(s: State, a: Action, t: State) {
    Next(s, a, t) && !a.Spurious?
  }

  ghost predicate Init(s: State) {
    && Shape(s) && s.balance == 0 && s.q == s.posted == [] && s.results == [] && !s.done
    && s.worker == Ready && s.destructor == NotBegun && s.sealed == 0
    && (forall c :: 0 <= c < |s.clients| ==> s.clients[c] == Calling && s.next[c] == 0)
  }

  // ---------- the invariant ----------

  /** The calls of one client in the order in which they were posted. */
  function OfClient(log: seq<Message>, c: nat): seq<Op> {
    if log == [] then [] else
    var last := log[|log| - 1];
    OfClient(log[..|log| - 1], c) + if last.client == c then [last.op] else []
  }

  /** Post number k is client c's latest call. */
  ghost predicate OwnPost(s: State, c: nat, k: nat)
    requires Shape(s) && c < |s.clients|
  {
    k < |s.posted| && s.next[c] > 0 && s.posted[k] == Message(c, s.jobs[c][s.next[c] - 1])
  }

  /** What has been posted is applied, in the worker's hands, or queued, in that order. */
  ghost predicate Queue(s: State)
    requires Shape(s)
  {
    && |s.results| <= |s.posted|
    && (if s.worker.Running?
        then |s.results| < |s.posted| && s.posted[|s.results|].op == s.worker.op && s.posted[|s.results| + 1..] == s.q
        else s.posted[|s.results|..] == s.q)
    && (forall c :: 0 <= c < |s.clients| ==> OfClient(s.posted, c) == s.jobs[c][..s.next[c]])
    && (forall i :: 0 <= i < |s.posted| ==> s.posted[i].client < |s.clients|)
  }

  /** A caller that has not got its future's value yet knows it by the number of its own post. */
  ghost predicate Numbers(s: State)
    requires Shape(s)
  {
    forall c :: 0 <= c < |s.clients| && s.clients[c] != Calling ==> OwnPost(s, c, s.clients[c].number)
  }

  /** Balance and answers are those of the sequential account. */
  ghost predicate Answers(log: seq<Message>, results: seq<Result>) {
    && |results| <= |log|
    && forall i :: 0 <= i < |results| ==> results[i] == Answer(log[i].op, Replay(log[..i]))
  }

  ghost predicate Serial(s: State) {
    && Answers(s.posted, s.results) && s.balance == Replay(s.posted[..|s.results|])
  }

  function Owes(pc: ClientPc): nat { if pc.Notifying? then 1 else 0 }

  ghost predicate NoLostWakeup(s: State) {
    && (!s.done && s.worker == Asleep ==> |s.q| <= Sum(Owes, s.clients))
    && (s.done && s.worker == Asleep ==> s.destructor == NotifyingAll)
  }

  ghost predicate Destruction(s: State)
    requires Shape(s)
  {
    && (s.done <==> s.destructor != NotBegun)
    && (s.done ==> s.sealed <= |s.posted|) && (s.done && s.orderly ==> CallersDone(s) && s.sealed == |s.posted|)
    && (s.worker == Gone ==> s.done && s.sealed <= |s.results|)
    && (s.destructor == Destroyed ==> s.worker == Gone)
  }

  ghost predicate Inv(s: State) {
    Shape(s) && Queue(s) && Numbers(s) && Serial(s) && NoLostWakeup(s) && Destruction(s)
  }

  ghost predicate SameProgram(s0: State, s: State) {
    s.jobs == s0.jobs && s.waits == s0.waits && s.orderly == s0.orderly
  }

  lemma InitInv(s: State)
    requires Init(s)
    ensures Inv(s)
  {
  }

  lemma StepShape(s: State, a: Action, t: State)
    requires Next(s, a, t)
    ensures Shape(t) && SameProgram(s, t)
  {
  }

  lemma QueuePost(s: State, c: nat, t: State)
    requires Next(s, Post(c), t) && Queue(s)
    ensures Shape(t) && Queue(t)
  {
    StepShape(s, Post(c), t);
    var message := Message(c, s.jobs[c][s.next[c]]);
    assert t.posted[..|s.posted|] == s.posted;
    forall d | 0 <= d < |t.clients| ensures OfClient(t.posted, d) == t.jobs[d][..t.next[d]] {
      assert OfClient(t.posted, d) == OfClient(s.posted, d) + if c == d then [message.op] else [];
    }
  }

  lemma QueueWorker(s: State, a: Action, t: State)
    requires Next(s, a, t) && Queue(s) && (a.Fetch? || a.RunJob?)
    ensures Shape(t) && Queue(t)
  {
    StepShape(s, a, t);
    if a.Fetch? && s.q != [] {
      assert s.posted[|s.results|] == s.q[0];
      assert s.posted[|s.results| + 1..] == s.posted[|s.results|..][1..];
    }
  }

  lemma QueueOther(s: State, a: Action, t: State)
    requires Next(s, a, t) && Queue(s) && !a.Post? && !a.Fetch? && !a.RunJob?
    ensures Shape(t) && Queue(t)
  {
    StepShape(s, a, t);
    assert t.q == s.q && t.posted == s.posted && t.results == s.results && t.next == s.next;
    assert t.worker.Running? <==> s.worker.Running?;
  }

  lemma QueueStep(s: State, a: Action, t: State)
    requires Next(s, a, t) && Queue(s)
    ensures Shape(t) && Queue(t)
  {
    match a
    case Post(c) => QueuePost(s, c, t);
    case Fetch => QueueWorker(s, a, t);
    case RunJob => QueueWorker(s, a, t);
    case _ => QueueOther(s, a, t);
  }

  lemma NumbersStep(s: State, a: Action, t: State)
    requires Next(s, a, t) && Numbers(s) && Shape(t)
    ensures Numbers(t)
  {
    forall c | 0 <= c < |t.clients| && t.clients[c] != Calling ensures OwnPost(t, c, t.clients[c].number) {
      if !(a.Post? && a.c == c) {
        assert OwnPost(s, c, s.clients[c].number);
      }
    }
  }

  lemma SerialPost(s: State, c: nat, t: State)
    requires Next(s, Post(c), t) && Serial(s)
    ensures Serial(t)
  {
    assert forall i :: 0 <= i <= |s.posted| ==> t.posted[..i] == s.posted[..i];
  }

  lemma ReplayOneMore(log: seq<Message>, n: nat)
    requires n < |log|
    ensures Replay(log[..n + 1]) == Effect(log[n].op, Replay(log[..n]))
  {
    assert log[..n + 1][..n] == log[..n];
  }

  lemma OneMoreAnswer(log: seq<Message>, results: seq<Result>)
    requires Answers(log, results) && |results| < |log|
    ensures Answers(log, results + [Answer(log[|results|].op, Replay(log[..|results|]))])
  {
  }

  lemma SerialRun(s: State, t: State)
    requires Next(s, RunJob, t) && Queue(s) && Serial(s)
    ensures Serial(t)
  {
    ReplayOneMore(s.posted, |s.results|);
    OneMoreAnswer(s.posted, s.results);
  }

  lemma SerialStep(s: State, a: Action, t: State)
    requires Next(s, a, t) && Queue(s) && Serial(s)
    ensures Serial(t)
  {
    if a.Post? {
      SerialPost(s, a.c, t);
    } else if a.RunJob? {
      SerialRun(s, t);
    } else {
      assert t.posted == s.posted && t.results == s.results && t.balance == s.balance;
    }
  }

  lemma WakeupClient(s: State, a: Action, t: State)
    requires Next(s, a, t) && NoLostWakeup(s) && (a.Post? || a.NotifyOne? || a.Await?)
    ensures NoLostWakeup(t)
  {
    SumUpdate(Owes, s.clients, a.c, t.clients[a.c]);
  }

  lemma WakeupStep(s: State, a: Action, t: State)
    requires Next(s, a, t) && NoLostWakeup(s) && Destruction(s)
    ensures NoLostWakeup(t)
  {
    if a.Post? || a.NotifyOne? || a.Await? {
      WakeupClient(s, a, t);
    }
  }

  lemma DestructionStep(s: State, a: Action, t: State)
    requires Next(s, a, t) && Queue(s) && Destruction(s) && Shape(t)
    ensures Destruction(t)
  {
    if a.Fetch? && s.q == [] {
      assert |s.posted[|s.results|..]| == 0;
    }
  }

  lemma StepInv(s: State, a: Action, t: State)
    requires Inv(s) && Next(s, a, t)
    ensures Inv(t) && SameProgram(s, t)
  {
    StepShape(s, a, t);
    QueueStep(s, a, t);
    NumbersStep(s, a, t);
    SerialStep(s, a, t);
    WakeupStep(s, a, t);
    DestructionStep(s, a, t);
  }

  lemma Reachable(s0: State, acts: seq<Action>, s: State)
    requires Init(s0) && Run(Next, s0, acts, s)
    ensures Inv(s) && SameProgram(s0, s)
  {
    InitInv(s0);
    var inv := (x: State) => Inv(x) && SameProgram(s0, x);
    forall x, a, y | inv(x) && Next(x, a, y) ensures inv(y) { StepInv(x, a, y); }
    RunInvariant(Next, inv, s0, acts, s);
  }

  // ---------- serialisation ----------

  /** A query is answered with the balance, a withdrawal with whether the balance covers it, a deposit with nothing. */
  ghost predicate Right(op: Op, balance: int, r: Result) {
    match op
    case GetBalance => r == Balance(balance)
    case Withdraw(amount) => r == Paid(amount <= balance)
    case Deposit(_) => r == Done
  }

  /**
    Every future's value is that of the sequential account after the operations posted
    before it, and each caller's operations are posted in the order it makes them.
   */
  lemma FuturesAreSerial(s0: State, acts: seq<Action>, s: State)
    requires Init(s0) && Run(Next, s0, acts, s)
    ensures |s.results| <= |s.posted| && s.balance == Replay(s.posted[..|s.results|])
    ensures forall i :: 0 <= i < |s.results| ==> Right(s.posted[i].op, Replay(s.posted[..i]), s.results[i])
    ensures Shape(s) && s.jobs == s0.jobs
    ensures forall c :: 0 <= c < |s.jobs| ==> OfClient(s.posted, c) == s.jobs[c][..s.next[c]]
  {
    Reachable(s0, acts, s);
  }

  /** A caller waits for the future of its own latest call, and for no other: the answer it gets is to that call. */
  lemma CallersAwaitTheirOwn(s0: State, acts: seq<Action>, s: State, c: nat)
    requires Init(s0) && Run(Next, s0, acts, s) && c < |s.clients| && s.clients[c] != Calling
    ensures Shape(s) && s.jobs == s0.jobs && OwnPost(s, c, s.clients[c].number)
    ensures var k := s.clients[c].number;
      k < |s.results| ==> Right(s0.jobs[c][s.next[c] - 1], Replay(s.posted[..k]), s.results[k])
  {
    Reachable(s0, acts, s);
  }

  /** What an answered operation has moved: a deposit its amount, a withdrawal its amount if it was paid. */
  function Moved(op: Op, result: Result): int {
    match op
    case Deposit(amount) => amount
    case Withdraw(amount) => if result == Paid(true) then -amount else 0
    case GetBalance => 0
  }

  function AllMoved(log: seq<Message>, results: seq<Result>): int
    requires |log| == |results|
  {
    if log == [] then 0
    else
      var n := |log| - 1;
      AllMoved(log[..n], results[..n]) + Moved(log[n].op, results[n])
  }

  lemma {:induction false} ReplayIsMoved(log: seq<Message>, results: seq<Result>)
    requires |log| == |results|
    requires forall i :: 0 <= i < |results| ==> results[i] == Answer(log[i].op, Replay(log[..i]))
    ensures Replay(log) == AllMoved(log, results)
  {
    if log != [] {
      var n := |log| - 1;
      assert forall i :: 0 <= i < n ==> log[..n][..i] == log[..i];
      ReplayIsMoved(log[..n], results[..n]);
    }
  }

  /** Money is conserved: the balance is what the deposits brought less what the callers were told they got. */
  lemma MoneyIsConserved(s0: State, acts: seq<Action>, s: State)
    requires Init(s0) && Run(Next, s0, acts, s)
    ensures |s.results| <= |s.posted| && s.balance == AllMoved(s.posted[..|s.results|], s.results)
  {
    Reachable(s0, acts, s);
    var log := s.posted[..|s.results|];
    assert forall i :: 0 <= i < |log| ==> log[..i] == s.posted[..i];
    ReplayIsMoved(log, s.results);
  }

  /**
    What the answers are, by the money alone: a query tells what the answered operations
    before it have moved, a withdrawal is paid exactly if that covers it, and a deposit is
    simply done.
   */
  lemma AnswersAreMoney(s0: State, acts: seq<Action>, s: State, i: nat)
    requires Init(s0) && Run(Next, s0, acts, s) && i < |s.results|
    ensures i < |s.posted|
    ensures var money := AllMoved(s.posted[..i], s.results[..i]);
      match s.posted[i].op
      case GetBalance => s.results[i] == Balance(money)
      case Withdraw(amount) => s.results[i] == Paid(amount <= money)
      case Deposit(_) => s.results[i] == Done
  {
    Reachable(s0, acts, s);
    var log, results := s.posted[..i], s.results[..i];
    assert forall j :: 0 <= j < i ==> log[..j] == s.posted[..j];
    ReplayIsMoved(log, results);
  }

  lemma {:induction false} ReplayNotNegative(log: seq<Message>)
    requires forall i :: 0 <= i < |log| && log[i].op.Deposit? ==> log[i].op.amount >= 0
    ensures Replay(log) >= 0
  {
    if log != [] {
      ReplayNotNegative(log[..|log| - 1]);
    }
  }

  lemma {:induction false} PostedIsAJob(log: seq<Message>, i: nat)
    requires i < |log|
    ensures log[i].op in OfClient(log, log[i].client)
  {
    var n := |log| - 1;
    if i < n {
      PostedIsAJob(log[..n], i);
    }
  }

  /** If no deposit is negative the balance never is, whatever is withdrawn. */
  lemma NeverOverdrawn(s0: State, acts: seq<Action>, s: State)
    requires Init(s0) && Run(Next, s0, acts, s)
    requires forall c, i :: 0 <= c < |s0.jobs| && 0 <= i < |s0.jobs[c]| && s0.jobs[c][i].Deposit? ==>
               s0.jobs[c][i].amount >= 0
    ensures s.balance >= 0
  {
    Reachable(s0, acts, s);
    var log := s.posted[..|s.results|];
    forall i | 0 <= i < |log| && log[i].op.Deposit? ensures log[i].op.amount >= 0 {
      var c := s.posted[i].client;
      PostedIsAJob(s.posted, i);
      assert s.posted[i].op in s.jobs[c][..s.next[c]];
    }
    ReplayNotNegative(log);
  }

  // ---------- no lost wakeup, termination ----------

  /** While the worker sleeps, every queued operation still has its notification to come. */
  lemma SleeperAlways(s0: State, acts: seq<Action>, s: State)
    requires Init(s0) && Run(Next, s0, acts, s) && s.worker == Asleep
    ensures !s.done ==> |s.q| <= Sum(Owes, s.clients)
    ensures s.done ==> s.destructor == NotifyingAll
  {
    Reachable(s0, acts, s);
  }

  function WorkerWeight(pc: WorkerPc): nat {
    match pc
    case Gone => 0
    case Asleep => 1
    case Ready => 2
    case Woken => 2
    case Running(_) => 3
  }

  function ClientWeight(pc: ClientPc): nat {
    match pc
    case Calling => 0
    case Awaiting(_) => 1
    case Notifying(_) => 3
  }

  function DestructorWeight(pc: DestructorPc): nat {
    match pc
    case NotBegun => 4
    case NotifyingAll => 3
    case Joining => 1
    case Destroyed => 0
  }

  /** Calls client c has still to make. */
  function Left(s: State, c: nat): nat
    requires Shape(s) && c < |s.next|
  {
    |s.jobs[c]| - s.next[c]
  }

  function Lefts(s: State): seq<nat> {
    if Shape(s) then seq(|s.next|, c requires 0 <= c < |s.next| => Left(s, c)) else []
  }

  function Measure(s: State): nat {
    6 * Sum(Identity, Lefts(s)) + 2 * |s.q| + Sum(ClientWeight, s.clients)
    + WorkerWeight(s.worker) + DestructorWeight(s.destructor)
  }

  function Credit(a: Action): nat { if a.Spurious? then 2 else 0 }

  lemma PaidClient(s: State, a: Action, t: State)
    requires Next(s, a, t) && (a.Post? || a.NotifyOne? || a.Await?)
    ensures Measure(t) + 1 <= Measure(s)
  {
    StepShape(s, a, t);
    SumUpdate(ClientWeight, s.clients, a.c, t.clients[a.c]);
    if a.Post? {
      assert Lefts(t) == Lefts(s)[a.c := Left(t, a.c)];
      SumUpdate(Identity, Lefts(s), a.c, Left(t, a.c));
    } else {
      assert Lefts(t) == Lefts(s);
    }
  }

  lemma PaidStep(s: State, a: Action, t: State)
    requires Next(s, a, t)
    ensures Measure(t) + 1 <= Measure(s) + Credit(a)
  {
    if a.Post? || a.NotifyOne? || a.Await? {
      PaidClient(s, a, t);
    } else {
      assert Lefts(t) == Lefts(s);
    }
  }

  lemma RunPays(s0: State, acts: seq<Action>, s: State)
    requires Run(Next, s0, acts, s)
    ensures |acts| + Measure(s) <= Measure(s0) + Total(Credit, acts)
  {
    var inv, measure := (x: State) => true, (x: State) => Measure(x) as int;
    forall x, a, y | Next(x, a, y) ensures measure(y) + 1 <= measure(x) + Credit(a) { PaidStep(x, a, y); }
    RunLength(Next, inv, measure, Credit, s0, acts, s);
  }

  lemma MeasureAtStart(s: State)
    requires Init(s)
    ensures Measure(s) == 6 * Sum(Identity, Lefts(s)) + 6
  {
    SumZero(ClientWeight, s.clients);
  }

  /** Every run is finite: six steps an operation and six for the object, and two more for a spurious wakeup. */
  lemma RunsAreFinite(s0: State, acts: seq<Action>, s: State)
    requires Init(s0) && Run(Next, s0, acts, s)
    ensures |acts| <= 6 * Sum(Identity, Lefts(s0)) + 6 + Total(Credit, acts)
  {
    RunPays(s0, acts, s);
    MeasureAtStart(s0);
  }

  lemma CanMove(s: State, a: Action)
    requires Enabled(s, a) && !a.Spurious?
    ensures !AtRest(Proper, s)
  {
    assert Proper(s, a, Apply(s, a));
  }

  lemma WorkerRests(s: State)
    requires Inv(s) && AtRest(Proper, s)
    ensures s.worker == Asleep || s.worker == Gone
    ensures s.destructor == NotBegun || s.destructor == Destroyed
  {
    if s.worker.Running? {
      CanMove(s, RunJob);
      assert false;
    } else if s.worker == Ready || s.worker == Woken {
      CanMove(s, Fetch);
      assert false;
    } else if s.destructor == NotifyingAll {
      CanMove(s, NotifyAll);
      assert false;
    } else if s.destructor == Joining {
      CanMove(s, Join);
      assert false;
    }
  }

  lemma ClientsRest(s: State)
    requires Inv(s) && AtRest(Proper, s) && s.orderly
    ensures CallersDone(s)
  {
    WorkerRests(s);
    forall c | 0 <= c < |s.clients| ensures !s.clients[c].Notifying? {
      if s.clients[c].Notifying? {
        CanMove(s, NotifyOne(c));
      }
    }
    SumZero(Owes, s.clients);
    forall c | 0 <= c < |s.clients| ensures s.clients[c] == Calling && s.next[c] == |s.jobs[c]| {
      if !s.done && s.clients[c].Awaiting? {
        assert s.posted[|s.results|..] == [];
        CanMove(s, Await(c));
      } else if !s.done && s.next[c] < |s.jobs[c]| {
        CanMove(s, Post(c));
      }
    }
  }

  /**
    Nobody is left waiting: an orderly program that can go no further has every call
    made and answered, the worker gone and the object destroyed.
   */
  lemma ProgramCompletes(s0: State, acts: seq<Action>, s: State)
    requires Init(s0) && s0.orderly && Run(Next, s0, acts, s) && AtRest(Proper, s)
    ensures Shape(s) && CallersDone(s) && s.destructor == Destroyed && s.worker == Gone
    ensures |s.results| == |s.posted| && s.balance == Replay(s.posted)
    ensures forall c :: 0 <= c < |s0.jobs| ==> OfClient(s.posted, c) == s0.jobs[c]
  {
    Reachable(s0, acts, s);
    WorkerRests(s);
    ClientsRest(s);
    if s.destructor == NotBegun {
      CanMove(s, BeginDestroy);
      assert false;
    }
    assert s.posted[..|s.results|] == s.posted;
    assert forall c :: 0 <= c < |s.jobs| ==> s.jobs[c][..s.next[c]] == s.jobs[c];
  }

  // ---------- destruction ----------

  ghost predicate AllApplied(s: State) { |s.results| == |s.posted| }

  /** Whatever was posted before `done` was set has been applied when the join returns. */
  lemma DestructorDrains(s0: State, acts: seq<Action>, s: State)
    requires Init(s0) && Run(Next, s0, acts, s) && s.destructor == Destroyed
    ensures s.sealed <= |s.results| <= |s.posted| && (s.orderly ==> AllApplied(s))
  {
    Reachable(s0, acts, s);
  }

  /** post does not look at `done`: posted once the worker has left, an operation is lost. */
  lemma LatePostIsLost(s0: State, c: nat) returns (acts: seq<Action>, s: State)
    requires Init(s0) && !s0.orderly && c < |s0.jobs| && s0.jobs[c] != []
    ensures Run(Next, s0, acts, s) && s.destructor == Destroyed && !AllApplied(s)
  {
    var m := Apply(Apply(Apply(s0, BeginDestroy), NotifyAll), Fetch);
    WorkerLeaves(s0, m);
    var n := Apply(m, Post(c));
    s := Apply(n, Join);
    Single(Next, n, Join, s);
    Prepend(Next, m, Post(c), n, [Join], s);
    Concat(Next, s0, [BeginDestroy] + ([NotifyAll] + [Fetch]), m, [Post(c)] + [Join], s);
    acts := [BeginDestroy] + ([NotifyAll] + [Fetch]) + ([Post(c)] + [Join]);
  }

  lemma WorkerLeaves(s0: State, m: State)
    requires Init(s0) && !s0.orderly && m == Apply(Apply(Apply(s0, BeginDestroy), NotifyAll), Fetch)
    ensures Run(Next, s0, [BeginDestroy] + ([NotifyAll] + [Fetch]), m)
    ensures m.worker == Gone && m.destructor == Joining && m.results == [] && m.posted == []
    ensures Shape(m) && m.clients == s0.clients && m.next == s0.next && m.jobs == s0.jobs
  {
    var a := Apply(s0, BeginDestroy);
    var b := Apply(a, NotifyAll);
    Single(Next, b, Fetch, m);
    Prepend(Next, a, NotifyAll, b, [Fetch], m);
    Prepend(Next, s0, BeginDestroy, a, [NotifyAll] + [Fetch], m);
  }

  /** For a program that calls at all: no operation is ever lost exactly if destruction waits for the callers. */
  lemma NothingLostExactly(s0: State)
    requires Init(s0) && exists c :: 0 <= c < |s0.jobs| && s0.jobs[c] != []
    ensures s0.orderly <==>
      forall acts, s :: Run(Next, s0, acts, s) && s.destructor == Destroyed ==> AllApplied(s)
  {
    if s0.orderly {
      forall acts, s | Run(Next, s0, acts, s) && s.destructor == Destroyed ensures AllApplied(s) {
        Reachable(s0, acts, s);
      }
    } else {
      var c :| 0 <= c < |s0.jobs| && s0.jobs[c] != [];
      var acts, s := LatePostIsLost(s0, c);
      assert Run(Next, s0, acts, s) && s.destructor == Destroyed && !AllApplied(s);
    }
  }

  // ---------- what the scheduler may do ----------

  /** The worker sleeps beside a queued operation, its notification still owed, and can only be woken. */
  ghost predicate SleepsBesideJob(s: State) {
    && s.worker == Asleep && s.q != [] && (exists c :: 0 <= c < |s.clients| && s.clients[c].Notifying?)
    && !Enabled(s, Fetch) && !Enabled(s, RunJob) && Enabled(s, Spurious)
  }

  /** post unlocks before it notifies, so every program that calls can get there. */
  lemma WorkerSleepsBesideJob(s0: State, c: nat) returns (acts: seq<Action>, s: State)
    requires Init(s0) && c < |s0.jobs| && s0.jobs[c] != []
    ensures Run(Next, s0, acts, s) && SleepsBesideJob(s)
  {
    var m := Apply(s0, Fetch);
    s := Apply(m, Post(c));
    Single(Next, m, Post(c), s);
    acts := [Fetch] + [Post(c)];
    Prepend(Next, s0, Fetch, m, [Post(c)], s);
    assert s.clients[c].Notifying?;
  }

  /** What get() answers a caller: its own call, made on the balance that all the messages ahead of it left. */
  ghost predicate Answered(s: State, c: nat, r: Result)
    requires Shape(s) && c < |s.clients| && s.clients[c].Awaiting?
  {
    var k := s.clients[c].number;
    && k < |s.posted| && s.next[c] > 0 && s.posted[k] == Message(c, s.jobs[c][s.next[c] - 1])
    && Right(s.posted[k].op, Replay(s.posted[..k]), r)
  }

  lemma AwaitedAnswer(s: State, c: nat)
    requires Inv(s) && Enabled(s, Await(c))
    ensures Answered(s, c, s.results[s.clients[c].number])
  {
  }

  // ---------- the object, in place ----------

  /** The balance, the queue, the futures and each thread's position, updated in place by one method a step. */
  class Account {
    const jobs: seq<seq<Op>>
    const waits: bool
    const orderly: bool
    var balance: int
    var q: seq<Message>
    var done: bool
    var results: seq<Result>
    var worker: WorkerPc
    var clients: seq<ClientPc>
    var next: seq<nat>
    var destructor: DestructorPc
    ghost var posted: seq<Message>
    ghost var sealed: nat
    var posts: nat

    ghost function Snapshot(): State
      reads this
    {
      State(jobs, waits, orderly, balance, q, done, results, worker, clients, next, destructor, posted, sealed)
    }

    ghost predicate Valid()
      reads this
    {
      Inv(Snapshot()) && posts == |posted|
    }

    constructor (jobs: seq<seq<Op>>, waits: bool, orderly: bool)
      ensures Init(Snapshot()) && Valid() && this.jobs == jobs && this.waits == waits && this.orderly == orderly
    {
      this.jobs, this.waits, this.orderly := jobs, waits, orderly;
      balance, q, done, results := 0, [], false, [];
      worker, destructor := Ready, NotBegun;
      clients, next := seq(|jobs|, _ => Calling), seq(|jobs|, _ => 0);
      posted, sealed, posts := [], 0, 0;
      new;
      InitInv(Snapshot());
    }

    /** The critical section of post. */
    method Post(c: nat)
      requires Valid() && Enabled(Snapshot(), Action.Post(c))
      modifies `q, `clients, `next, `posted, `posts
      ensures Valid() && Snapshot() == Apply(old(Snapshot()), Action.Post(c))
      ensures q == old(q) + [Message(c, jobs[c][old(next)[c]])] && clients[c] == Notifying(old(posts))
      ensures clients == old(clients)[c := Notifying(old(posts))] && next == old(next)[c := old(next)[c] + 1]
      ensures posted == old(posted) + [Message(c, jobs[c][old(next)[c]])]
    {
      ghost var before := Snapshot();
      var message := Message(c, jobs[c][next[c]]);
      q, clients, next := q + [message], clients[c := Notifying(posts)], next[c := next[c] + 1];
      posted, posts := posted + [message], posts + 1;
      StepInv(before, Action.Post(c), Snapshot());
    }

    /** A caller's get() returns the answer of the sequential account to the operation it posted. */
    method Await(c: nat) returns (r: Result)
      requires Valid() && Enabled(Snapshot(), Action.Await(c))
      modifies `clients
      ensures Valid() && Snapshot() == Apply(old(Snapshot()), Action.Await(c))
      ensures clients == old(clients)[c := Calling] && r == results[old(clients)[c].number]
      ensures Answered(old(Snapshot()), c, r)
    {
      ghost var before := Snapshot();
      AwaitedAnswer(before, c);
      r := results[clients[c].number];
      Awaited(c);
      StepInv(before, Action.Await(c), Snapshot());
    }

    /** The caller goes on to its next operation. */
    method Awaited(c: nat)
      requires Enabled(Snapshot(), Action.Await(c))
      modifies `clients
      ensures Snapshot() == Apply(old(Snapshot()), Action.Await(c)) && clients == old(clients)[c := Calling]
    {
      clients := clients[c := Calling];
    }

    /** The critical section of the worker's loop. */
    method Fetch() returns (blocked: bool)
      requires Valid() && Enabled(Snapshot(), Action.Fetch)
      modifies `worker, `q
      ensures Valid() && Snapshot() == Apply(old(Snapshot()), Action.Fetch)
      ensures blocked <==> worker == Asleep
      ensures worker == Gone ==> |results| == |posted|
      ensures blocked <==> old(q) == [] && !done
      ensures old(q) == [] ==> q == [] && worker == if done then Gone else Asleep
      ensures old(q) != [] ==> q == old(q)[1..] && worker == Running(old(q)[0].op)
    {
      ghost var before := Snapshot();
      blocked := !(done || q != []);
      if blocked {
        worker := Asleep;
      } else if done && q == [] {
        worker := Gone;
      } else {
        worker, q := Running(q[0].op), q[1..];
      }
      StepInv(before, Action.Fetch, Snapshot());
    }

    /** The three closures. */
    static method Closure(op: Op, before: int) returns (after: int, answer: Result)
      ensures after == Effect(op, before) && answer == Answer(op, before)
      ensures answer == Paid(true) ==> op.amount <= before && after == before - op.amount
      ensures answer == Paid(false) ==> after == before < op.amount
      ensures op.GetBalance? ==> after == before && answer == Balance(before)
      ensures op.Deposit? ==> after == before + op.amount && answer == Done
      ensures op.Withdraw? ==> answer == Paid(op.amount <= before)
    {
      after := before;
      match op {
        case Deposit(amount) =>
          after, answer := after + amount, Done;
        case Withdraw(amount) =>
          if before >= amount {
            after, answer := after - amount, Paid(true);
          } else {
            answer := Paid(false);
          }
        case GetBalance =>
          answer := Balance(before);
      }
    }

    /** The posted closure runs and fulfils its promise. */
    method RunJob()
      requires Valid() && Enabled(Snapshot(), Action.RunJob)
      modifies `balance, `results, `worker
      ensures Valid() && Snapshot() == Apply(old(Snapshot()), Action.RunJob)
      ensures |results| <= |posted| && balance == Replay(posted[..|results|])
      ensures worker == Ready && |results| == |old(results)| + 1 && results[..|old(results)|] == old(results)
      ensures balance == Effect(old(worker).op, old(balance))
      ensures results[|old(results)|] == Answer(old(worker).op, old(balance))
      ensures old(worker).op.GetBalance? ==> results[|old(results)|] == Balance(old(balance)) && balance == old(balance)
      ensures old(worker).op.Deposit? ==>
        results[|old(results)|] == Done && balance == old(balance) + old(worker).op.amount
    {
      ghost var before := Snapshot();
      var answer;
      balance, answer := Closure(worker.op, balance);
      results, worker := results + [answer], Ready;
      StepInv(before, Action.RunJob, Snapshot());
    }

    /** The fields that such a step changes. */
    method Step(a: Action)
      requires a.NotifyOne? || a.Spurious? || a.BeginDestroy? || a.NotifyAll? || a.Join?
      requires Enabled(Snapshot(), a)
      modifies `worker, `clients, `done, `destructor, `sealed
      ensures Snapshot() == Apply(old(Snapshot()), a)
      ensures a.NotifyOne? ==> var k := old(clients)[a.c].number;
        clients == old(clients)[a.c := if waits then Awaiting(k) else Calling]
      ensures !a.NotifyOne? ==> clients == old(clients)
      ensures a.NotifyOne? || a.NotifyAll? ==> worker == if old(worker) == Asleep then Woken else old(worker)
      ensures a.BeginDestroy? || a.Join? ==> worker == old(worker)
      ensures a.Spurious? ==> old(worker) == Asleep && worker == Woken
      ensures a.BeginDestroy? ==> done && destructor == NotifyingAll && sealed == |posted|
      ensures !a.BeginDestroy? ==> done == old(done) && sealed == old(sealed)
      ensures a.NotifyAll? ==> destructor == Joining
      ensures a.Join? ==> destructor == Destroyed
      ensures a.NotifyOne? || a.Spurious? ==> destructor == old(destructor)
    {
      match a {
        case NotifyOne(c) =>
          worker := Wake(worker);
          clients := clients[c := if waits then Awaiting(clients[c].number) else Calling];
        case Spurious =>
          worker := Woken;
        case BeginDestroy =>
          done, destructor, sealed := true, NotifyingAll, |posted|;
        case NotifyAll =>
          worker, destructor := Wake(worker), Joining;
        case Join =>
          destructor := Destroyed;
      }
    }

    /** The notification of post, spurious wakeups, and the destructor's steps. */
    method Other(a: Action)
      requires a.NotifyOne? || a.Spurious? || a.BeginDestroy? || a.NotifyAll? || a.Join?
      requires Valid() && Enabled(Snapshot(), a)
      modifies `worker, `clients, `done, `destructor, `sealed
      ensures Valid() && Snapshot() == Apply(old(Snapshot()), a)
      ensures destructor == Destroyed ==> sealed <= |results|
      ensures a.NotifyOne? ==> var k := old(clients)[a.c].number;
        clients == old(clients)[a.c := if waits then Awaiting(k) else Calling]
      ensures !a.NotifyOne? ==> clients == old(clients)
      ensures a.NotifyOne? || a.NotifyAll? ==> worker == if old(worker) == Asleep then Woken else old(worker)
      ensures a.BeginDestroy? || a.Join? ==> worker == old(worker)
      ensures a.Spurious? ==> old(worker) == Asleep && worker == Woken
      ensures a.BeginDestroy? ==> done && destructor == NotifyingAll && sealed == |posted|
      ensures !a.BeginDestroy? ==> done == old(done) && sealed == old(sealed)
      ensures a.NotifyAll? ==> destructor == Joining
      ensures a.Join? ==> destructor == Destroyed && worker == Gone
      ensures a.NotifyOne? || a.Spurious? ==> destructor == old(destructor)
    {
      ghost var before := Snapshot();
      Step(a);
      StepInv(before, a, Snapshot());
    }
  }
}
