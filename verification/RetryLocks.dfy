/**
  The two retry loops: take one lock, try the other, and on failure let go and try
  again.

  `Blocking(limit)` is the loop that waits for its first lock and gives up after a
  number of attempts; `Polling` is the one that also only tries its first lock and
  never gives up.  Each thread has its own order of locks.  try_lock may fail even
  on a free lock.
 */
module RetryLocks {
  import opened Runs
  import opened Sums

  datatype Mode = Blocking(limit: nat) | Polling

  datatype Pair = Pair(first: nat, second: nat)

  datatype Pc =
    | Start      // the head of the loop, no lock held
    | Trying     // holds the first lock
    | Failed     // holds the first lock, the second was busy
    | Both
    | Releasing  // has let the second lock go
    | Ended

  /** `result` is the loop's out-parameter: the attempt that won, or -1. */
  datatype State = State(
    mode: Mode, pairs: seq<Pair>,
    owner: map<nat, nat>, pcs: seq<Pc>, tries: seq<nat>, result: seq<int>)

  datatype Action =
    | TakeFirst(t: nat, fail: bool)
    | TrySecond(t: nat, fail: bool)
    | LetGo(t: nat)
    | ReleaseSecond(t: nat)
    | ReleaseFirst(t: nat)
    | GiveUp(t: nat)

  // ---------- the steps ----------

  predicate Shape(s: State) {
    |s.pcs| == |s.tries| == |s.result| == |s.pairs|
  }

  predicate AttemptsLeft(mode: Mode, tries: nat) {
    mode.Blocking? ==> tries < mode.limit
  }

  predicate Enabled(s: State, a: Action) {
    && Shape(s) && a.t < |s.pcs|
    && match a
       case TakeFirst(t, fail) =>
         && s.pcs[t] == Start && AttemptsLeft(s.mode, s.tries[t])
         && (s.mode.Blocking? ==> s.pairs[t].first !in s.owner && !fail)
       case TrySecond(t, fail) => s.pcs[t] == Trying
       case LetGo(t) => s.pcs[t] == Failed
       case ReleaseSecond(t) => s.pcs[t] == Both
       case ReleaseFirst(t) => s.pcs[t] == Releasing
       case GiveUp(t) => s.pcs[t] == Start && !AttemptsLeft(s.mode, s.tries[t])
  }

  function Apply(s: State, a: Action): State
    requires Enabled(s, a)
  {
    var p := s.pairs[a.t];
    match a
    case TakeFirst(t, fail) =>
      if p.first in s.owner || fail then s
      else s.(owner := s.owner[p.first := t], pcs := s.pcs[t := Trying])
    case TrySecond(t, fail) =>
      if p.second in s.owner || fail then s.(pcs := s.pcs[t := Failed])
      else s.(owner := s.owner[p.second := t], pcs := s.pcs[t := Both])
    case LetGo(t) =>
      s.(owner := s.owner - {p.first}, pcs := s.pcs[t := Start], tries := s.tries[t := s.tries[t] + 1])
    case ReleaseSecond(t) => s.(owner := s.owner - {p.second}, pcs := s.pcs[t := Releasing])
    case ReleaseFirst(t) =>
      s.(owner := s.owner - {p.first}, pcs := s.pcs[t := Ended], result := s.result[t := s.tries[t]])
    case GiveUp(t) => s.(pcs := s.pcs[t := Ended], result := s.result[t := -1])
  }

  ghost predicate Next(s: State, a: Action, t: State) {
    Enabled(s, a) && t == Apply(s, a)
  }

  ghost predicate Init(s: State) {
    && Shape(s) && s.owner == map[]
    && (forall t :: 0 <= t < |s.pcs| ==> s.pcs[t] == Start && s.tries[t] == 0)
    && (forall t :: 0 <= t < |s.pairs| ==> s.pairs[t].first != s.pairs[t].second)
  }

  ghost predicate Finished(s: State) {
    forall t :: 0 <= t < |s.pcs| ==> s.pcs[t] == Ended
  }

  // ---------- the invariant ----------

  ghost function Held(s: State, t: nat): set<nat>
    requires Shape(s) && t < |s.pcs|
  {
    match s.pcs[t]
    case Trying => {s.pairs[t].first}
    case Failed => {s.pairs[t].first}
    case Both => {s.pairs[t].first, s.pairs[t].second}
    case Releasing => {s.pairs[t].first}
    case _ => {}
  }

  ghost predicate ThreadOk(s: State, t: nat)
    requires Shape(s) && t < |s.pcs|
  {
    && s.pairs[t].first != s.pairs[t].second
    && (forall lock :: lock in Held(s, t) <==> lock in s.owner && s.owner[lock] == t)
    && (s.mode.Blocking? ==> s.tries[t] <= s.mode.limit)
    && (Held(s, t) != {} ==> AttemptsLeft(s.mode, s.tries[t]))
    && (s.pcs[t] == Ended ==> ResultOk(s, t))
  }

  /** The out-parameter tells a win, and at which attempt, from having used up every attempt. */
  ghost predicate ResultOk(s: State, t: nat)
    requires Shape(s) && t < |s.pcs|
  {
    if s.result[t] == -1 then s.mode == Blocking(s.tries[t])
    else s.result[t] == s.tries[t] && AttemptsLeft(s.mode, s.tries[t])
  }

  ghost predicate Inv(s: State) {
    && Shape(s)
    && (forall t :: 0 <= t < |s.pcs| ==> ThreadOk(s, t))
    && (forall lock :: lock in s.owner ==> s.owner[lock] < |s.pcs|)
  }

  lemma InitInv(s: State)
    requires Init(s)
    ensures Inv(s)
  {
    assert forall t :: 0 <= t < |s.pcs| ==> Held(s, t) == {};
  }

  lemma StepThread(s: State, a: Action, s': State, t: nat)
    requires Inv(s) && Next(s, a, s') && Shape(s') && t < |s.pcs|
    ensures ThreadOk(s', t)
  {
    assert ThreadOk(s, t) && ThreadOk(s, a.t);
  }

  lemma StepInv(s: State, a: Action, s': State)
    requires Inv(s) && Next(s, a, s')
    ensures Inv(s')
  {
    forall t | 0 <= t < |s'.pcs| ensures ThreadOk(s', t) {
      StepThread(s, a, s', t);
    }
  }

  lemma Reachable(s0: State, acts: seq<Action>, s: State)
    requires Init(s0) && Run(Next, s0, acts, s)
    ensures Inv(s)
  {
    InitInv(s0);
    forall x, a, y | Inv(x) && Next(x, a, y) ensures Inv(y) { StepInv(x, a, y); }
    RunInvariant(Next, Inv, s0, acts, s);
  }

  // ---------- no deadlock ----------

  /** What a thread that holds a lock can do at once, whatever the others hold. */
  function OwnStep(s: State, t: nat): Action
    requires Shape(s) && t < |s.pcs|
  {
    match s.pcs[t]
    case Trying => TrySecond(t, false)
    case Failed => LetGo(t)
    case Both => ReleaseSecond(t)
    case Releasing => ReleaseFirst(t)
    case Start => if AttemptsLeft(s.mode, s.tries[t]) then TakeFirst(t, false) else GiveUp(t)
    case Ended => GiveUp(t)
  }

  /** A thread that holds a lock has a step that moves it on. */
  lemma HoldersNeverWait(s0: State, acts: seq<Action>, s: State, t: nat)
    requires Init(s0) && Run(Next, s0, acts, s) && t < |s.pcs|
    ensures Shape(s)
    ensures Held(s, t) != {} ==> Enabled(s, OwnStep(s, t)) && Apply(s, OwnStep(s, t)).pcs[t] != s.pcs[t]
  {
    Reachable(s0, acts, s);
  }

  /** No reachable state is stuck: while a thread is left, some step changes something. */
  lemma NeverStuck(s0: State, acts: seq<Action>, s: State) returns (a: Action)
    requires Init(s0) && Run(Next, s0, acts, s) && !Finished(s)
    ensures Enabled(s, a) && Apply(s, a) != s
  {
    Reachable(s0, acts, s);
    var t :| 0 <= t < |s.pcs| && s.pcs[t] != Ended;
    assert ThreadOk(s, t);
    var lock := s.pairs[t].first;
    if s.pcs[t] == Start && lock in s.owner && AttemptsLeft(s.mode, s.tries[t]) {
      var u := s.owner[lock];
      assert ThreadOk(s, u);
      assert Held(s, u) != {};
      a := OwnStep(s, u);
      HoldersNeverWait(s0, acts, s, u);
    } else {
      a := OwnStep(s, t);
      assert Apply(s, a).pcs[t] != s.pcs[t];
    }
  }

  // ---------- livelock ----------

  predicate BadLuck(a: Action) { (a.TakeFirst? || a.TrySecond?) && a.fail }

  /** No try fails on a free lock. */
  predicate NoBadLuck(acts: seq<Action>) {
    forall i :: 0 <= i < |acts| ==> !BadLuck(acts[i])
  }

  ghost predicate Lucky(s: State, a: Action, t: State) { Next(s, a, t) && !BadLuck(a) }

  /** Every thread's second lock is the first of some thread. */
  ghost predicate Entangled(s: State) {
    forall t :: 0 <= t < |s.pairs| ==> IsFirst(s, s.pairs[t].second)
  }

  ghost predicate IsFirst(s: State, lock: nat) {
    exists u :: 0 <= u < |s.pairs| && s.pairs[u].first == lock
  }

  /** A run in which no thread gets both locks although no try fails on a free one. */
  ghost predicate Livelock(p: State, acts: seq<Action>, s: State) {
    && Run(Next, p, acts, s) && NoBadLuck(acts) && Finished(s)
    && |s.result| == |p.result| && forall t :: 0 <= t < |s.result| ==> s.result[t] == -1
  }

  lemma {:induction false} LuckyRun(s0: State, acts: seq<Action>, s: State)
    requires Run(Next, s0, acts, s) && NoBadLuck(acts)
    ensures Run(Lucky, s0, acts, s)
    decreases |acts|
  {
    if acts != [] {
      var m :| Next(s0, acts[0], m) && Run(Next, m, acts[1..], s);
      assert Lucky(s0, acts[0], m);
      LuckyRun(m, acts[1..], s);
    }
  }

  lemma {:induction false} UnluckyRun(s0: State, acts: seq<Action>, s: State)
    requires Run(Lucky, s0, acts, s)
    ensures Run(Next, s0, acts, s) && NoBadLuck(acts)
    decreases |acts|
  {
    if acts != [] {
      var m :| Lucky(s0, acts[0], m) && Run(Lucky, m, acts[1..], s);
      UnluckyRun(m, acts[1..], s);
    }
  }

  /** A state of program p. */
  ghost predicate StateOf(p: State, s: State) {
    Inv(s) && s.mode == p.mode && s.pairs == p.pairs
  }

  lemma Go(p: State, s: State, a: Action) returns (m: State)
    requires StateOf(p, s) && Enabled(s, a) && !BadLuck(a)
    ensures m == Apply(s, a) && Lucky(s, a, m) && StateOf(p, m)
  {
    m := Apply(s, a);
    StepInv(s, a, m);
  }

  /** The lucky steps of a round, and what they change. */
  lemma GoTake(p: State, s: State, t: nat) returns (m: State)
    requires StateOf(p, s) && t < |s.pcs| && s.pcs[t] == Start && AttemptsLeft(s.mode, s.tries[t])
    requires s.pairs[t].first !in s.owner
    ensures Lucky(s, TakeFirst(t, false), m) && StateOf(p, m)
    ensures m.pcs == s.pcs[t := Trying] && m.tries == s.tries && m.owner == s.owner[s.pairs[t].first := t]
  {
    m := Go(p, s, TakeFirst(t, false));
  }

  lemma GoFail(p: State, s: State, t: nat) returns (m: State)
    requires Entangled(p) && StateOf(p, s) && FirstsTaken(s) && t < |s.pcs| && s.pcs[t] == Trying
    ensures Lucky(s, TrySecond(t, false), m) && StateOf(p, m)
    ensures m.pcs == s.pcs[t := Failed] && m.tries == s.tries && m.owner == s.owner
  {
    TryFails(p, s, t);
    m := Go(p, s, TrySecond(t, false));
  }

  lemma GoLet(p: State, s: State, t: nat) returns (m: State)
    requires StateOf(p, s) && t < |s.pcs| && s.pcs[t] == Failed
    ensures Lucky(s, LetGo(t), m) && StateOf(p, m)
    ensures m.pcs == s.pcs[t := Start] && m.tries == s.tries[t := s.tries[t] + 1]
    ensures m.owner == s.owner - {s.pairs[t].first}
  {
    m := Go(p, s, LetGo(t));
  }

  lemma Glue(s: State, a: Action, m: State, acts: seq<Action>, s': State)
    requires Lucky(s, a, m) && Run(Lucky, m, acts, s')
    ensures Run(Lucky, s, [a] + acts, s')
  {
    Prepend(Lucky, s, a, m, acts, s');
  }

  /** Every first lock is taken, by threads that hold no other. */
  ghost predicate FirstsTaken(s: State) {
    forall u :: 0 <= u < |s.pairs| ==> s.pairs[u].first in s.owner
  }

  /** While all first locks are taken by threads with only one lock, a try of a second lock fails. */
  lemma TryFails(p: State, s: State, t: nat)
    requires Entangled(p) && StateOf(p, s) && FirstsTaken(s) && t < |s.pcs| && s.pcs[t] == Trying
    ensures s.pairs[t].second in s.owner
  {
    assert IsFirst(p, p.pairs[t].second);
    var u :| 0 <= u < |p.pairs| && p.pairs[u].first == p.pairs[t].second;
    assert s.pairs[u].first in s.owner;
  }

  ghost function At(pcs: seq<Pc>, pc: Pc): set<nat> { set t: nat | t < |pcs| && pcs[t] == pc }

  lemma Moved(pcs: seq<Pc>, t: nat, to: Pc, pc: Pc)
    requires t < |pcs|
    ensures At(pcs[t := to], pc) == if to == pc then At(pcs, pc) + {t} else At(pcs, pc) - {t}
  {
  }

  /** Threads that have not made their k-th attempt yet. */
  ghost function Fresh(pcs: seq<Pc>, tries: seq<nat>, k: nat): set<nat> {
    set t: nat | t < |pcs| && t < |tries| && pcs[t] == Start && tries[t] == k
  }

  lemma FreshMoved(pcs: seq<Pc>, tries: seq<nat>, t: nat, to: Pc, n: nat, k: nat)
    requires t < |pcs| == |tries|
    ensures Fresh(pcs[t := to], tries[t := n], k)
         == if to == Start && n == k then Fresh(pcs, tries, k) + {t} else Fresh(pcs, tries, k) - {t}
  {
  }

  /** All threads are in their k-th attempt, at its start, holding a lock, or after its failure. */
  ghost predicate InRound(k: nat, pcs: seq<Pc>, tries: seq<nat>) {
    && |pcs| == |tries|
    && (forall t :: 0 <= t < |pcs| ==> pcs[t] == Start || pcs[t] == Trying || pcs[t] == Failed)
    && (forall t :: 0 <= t < |pcs| ==> tries[t] == k || (pcs[t] == Start && tries[t] == k + 1))
  }

  /** Every free first lock is taken. */
  lemma {:induction false} Gather(p: State, k: nat, s: State) returns (acts: seq<Action>, s': State)
    requires StateOf(p, s) && InRound(k, s.pcs, s.tries) && AttemptsLeft(p.mode, k)
    requires At(s.pcs, Failed) == {} && Fresh(s.pcs, s.tries, k) == At(s.pcs, Start)
    ensures Run(Lucky, s, acts, s') && StateOf(p, s') && InRound(k, s'.pcs, s'.tries) && FirstsTaken(s')
    decreases At(s.pcs, Start)
  {
    if FirstsTaken(s) {
      acts, s' := [], s;
    } else {
      var t := FreeFirst(p, k, s);
      var m := GoTake(p, s, t);
      Moved(s.pcs, t, Trying, Start);
      Moved(s.pcs, t, Trying, Failed);
      FreshMoved(s.pcs, s.tries, t, Trying, k, k);
      assert s.tries[t := k] == s.tries;
      var rest;
      rest, s' := Gather(p, k, m);
      acts := [TakeFirst(t, false)] + rest;
      Glue(s, TakeFirst(t, false), m, rest, s');
    }
  }

  lemma FreeFirst(p: State, k: nat, s: State) returns (t: nat)
    requires StateOf(p, s) && InRound(k, s.pcs, s.tries) && !FirstsTaken(s)
    requires At(s.pcs, Failed) == {} && Fresh(s.pcs, s.tries, k) == At(s.pcs, Start)
    ensures t < |s.pcs| && s.pairs[t].first !in s.owner && t in At(s.pcs, Start) && s.tries[t] == k
  {
    t :| 0 <= t < |s.pairs| && s.pairs[t].first !in s.owner;
    assert ThreadOk(s, t);
    assert t !in At(s.pcs, Failed);
    assert s.pcs[t] == Trying ==> s.pairs[t].first in Held(s, t);
    assert t in At(s.pcs, Start);
    assert t in Fresh(s.pcs, s.tries, k);
  }

  /** Everyone who holds a lock tries its second and fails. */
  lemma {:induction false} Clash(p: State, k: nat, s: State) returns (acts: seq<Action>, s': State)
    requires Entangled(p) && StateOf(p, s) && InRound(k, s.pcs, s.tries) && FirstsTaken(s)
    ensures Run(Lucky, s, acts, s') && StateOf(p, s') && InRound(k, s'.pcs, s'.tries) && FirstsTaken(s')
    ensures At(s'.pcs, Trying) == {}
    decreases At(s.pcs, Trying)
  {
    if At(s.pcs, Trying) == {} {
      acts, s' := [], s;
    } else {
      var t :| t in At(s.pcs, Trying);
      var m := GoFail(p, s, t);
      Moved(s.pcs, t, Failed, Trying);
      var rest;
      rest, s' := Clash(p, k, m);
      acts := [TrySecond(t, false)] + rest;
      Glue(s, TrySecond(t, false), m, rest, s');
    }
  }

  /** Between two attempts, with nobody trying. */
  ghost predicate Paused(p: State, k: nat, s: State) {
    StateOf(p, s) && InRound(k, s.pcs, s.tries) && At(s.pcs, Trying) == {}
  }

  lemma HolderHasFailed(p: State, k: nat, s: State, t: nat) returns (h: nat)
    requires Paused(p, k, s) && FirstsTaken(s) && t in Fresh(s.pcs, s.tries, k)
    ensures h < |s.pcs| && h != t && s.pcs[h] == Failed && s.pairs[h].first == s.pairs[t].first && s.tries[h] == k
  {
    h := s.owner[s.pairs[t].first];
    assert ThreadOk(s, h);
    assert s.pairs[t].first in Held(s, h);
    assert h !in At(s.pcs, Trying);
  }

  /** Thread t takes its first lock over from thread h, which has failed with it. */
  lemma HandOver(p: State, k: nat, s: State, t: nat, h: nat) returns (m1: State, m2: State)
    requires Paused(p, k, s) && FirstsTaken(s) && t in Fresh(s.pcs, s.tries, k) && AttemptsLeft(p.mode, k)
    requires h < |s.pcs| && h != t && s.pcs[h] == Failed && s.pairs[h].first == s.pairs[t].first && s.tries[h] == k
    ensures Lucky(s, LetGo(h), m1) && Lucky(m1, TakeFirst(t, false), m2) && StateOf(p, m2) && FirstsTaken(m2)
    ensures m2.pcs == s.pcs[h := Start][t := Trying] && m2.tries == s.tries[h := k + 1]
  {
    m1 := GoLet(p, s, h);
    m2 := GoTake(p, m1, t);
    forall u | 0 <= u < |m2.pairs| ensures m2.pairs[u].first in m2.owner {
      assert s.pairs[u].first in s.owner;
    }
  }

  lemma Thrice(s: State, a: Action, m1: State, b: Action, m2: State, c: Action, t: State) returns (acts: seq<Action>)
    requires Lucky(s, a, m1) && Lucky(m1, b, m2) && Lucky(m2, c, t)
    ensures Run(Lucky, s, acts, t)
  {
    Single(Lucky, m2, c, t);
    Glue(m1, b, m2, [c], t);
    acts := [a] + ([b] + [c]);
    Glue(s, a, m1, [b] + [c], t);
  }

  lemma FailsToo(p: State, m: State, pcs: seq<Pc>, t: nat) returns (s': State)
    requires Entangled(p) && StateOf(p, m) && FirstsTaken(m) && t < |pcs| && m.pcs == pcs[t := Trying]
    ensures Lucky(m, TrySecond(t, false), s') && StateOf(p, s') && FirstsTaken(s')
    ensures s'.pcs == pcs[t := Failed] && s'.tries == m.tries
  {
    s' := GoFail(p, m, t);
    assert m.pcs[t := Failed] == pcs[t := Failed];
  }

  /** And fails too. */
  lemma TakeOver(p: State, k: nat, s: State, t: nat) returns (acts: seq<Action>, s': State, h: nat)
    requires Entangled(p) && Paused(p, k, s) && FirstsTaken(s)
    requires t in Fresh(s.pcs, s.tries, k) && AttemptsLeft(p.mode, k)
    ensures Run(Lucky, s, acts, s') && StateOf(p, s') && FirstsTaken(s')
    ensures h < |s.pcs| && h != t && s.pcs[h] == Failed && s.tries[h] == k
    ensures s'.pcs == s.pcs[h := Start][t := Failed] && s'.tries == s.tries[h := k + 1]
  {
    h := HolderHasFailed(p, k, s, t);
    var m1, m2 := HandOver(p, k, s, t, h);
    s' := FailsToo(p, m2, s.pcs[h := Start], t);
    acts := Thrice(s, LetGo(h), m1, TakeFirst(t, false), m2, TrySecond(t, false), s');
  }

  lemma TakenOver(k: nat, pcs: seq<Pc>, tries: seq<nat>, t: nat, h: nat)
    requires InRound(k, pcs, tries) && At(pcs, Trying) == {} && t in Fresh(pcs, tries, k)
    requires h < |pcs| && h != t && pcs[h] == Failed && tries[h] == k
    ensures var pcs', tries' := pcs[h := Start][t := Failed], tries[h := k + 1];
      && InRound(k, pcs', tries') && At(pcs', Trying) == {}
      && Fresh(pcs', tries', k) == Fresh(pcs, tries, k) - {t}
  {
    Moved(pcs, h, Start, Trying);
    Moved(pcs[h := Start], t, Failed, Trying);
    FreshMoved(pcs, tries, h, Start, k + 1, k);
    FreshMoved(pcs[h := Start], tries[h := k + 1], t, Failed, k, k);
    assert tries[h := k + 1][t := k] == tries[h := k + 1];
  }

  /** So do all that have not had their attempt. */
  lemma {:induction false} Relay(p: State, k: nat, s: State) returns (acts: seq<Action>, s': State)
    requires Entangled(p) && Paused(p, k, s) && FirstsTaken(s) && AttemptsLeft(p.mode, k)
    ensures Run(Lucky, s, acts, s') && Paused(p, k, s') && Fresh(s'.pcs, s'.tries, k) == {}
    decreases Fresh(s.pcs, s.tries, k)
  {
    if Fresh(s.pcs, s.tries, k) == {} {
      acts, s' := [], s;
    } else {
      var t :| t in Fresh(s.pcs, s.tries, k);
      var first, m, h := TakeOver(p, k, s, t);
      TakenOver(k, s.pcs, s.tries, t, h);
      var rest;
      rest, s' := Relay(p, k, m);
      acts := first + rest;
      Concat(Lucky, s, first, m, rest, s');
    }
  }

  /** Everyone is at the head of the loop after k failed attempts. */
  ghost predicate AtHead(p: State, k: nat, s: State) {
    StateOf(p, s) && forall t :: 0 <= t < |s.pcs| ==> s.pcs[t] == Start && s.tries[t] == k
  }

  lemma {:induction false} BackOff(p: State, k: nat, s: State) returns (acts: seq<Action>, s': State)
    requires Paused(p, k, s) && Fresh(s.pcs, s.tries, k) == {}
    ensures Run(Lucky, s, acts, s') && AtHead(p, k + 1, s')
    decreases At(s.pcs, Failed)
  {
    if At(s.pcs, Failed) == {} {
      acts, s' := [], s;
      forall t | 0 <= t < |s.pcs| ensures s.pcs[t] == Start && s.tries[t] == k + 1 {
        assert t !in At(s.pcs, Failed) && t !in At(s.pcs, Trying) && t !in Fresh(s.pcs, s.tries, k);
      }
    } else {
      var t :| t in At(s.pcs, Failed);
      var m := GoLet(p, s, t);
      Moved(s.pcs, t, Start, Failed);
      Moved(s.pcs, t, Start, Trying);
      FreshMoved(s.pcs, s.tries, t, Start, s.tries[t] + 1, k);
      var rest;
      rest, s' := BackOff(p, k, m);
      acts := [LetGo(t)] + rest;
      Glue(s, LetGo(t), m, rest, s');
    }
  }

  /** One failed attempt of every thread. */
  lemma OneRound(p: State, k: nat, s: State) returns (acts: seq<Action>, s': State)
    requires Entangled(p) && AtHead(p, k, s) && AttemptsLeft(p.mode, k)
    ensures Run(Lucky, s, acts, s') && AtHead(p, k + 1, s')
  {
    assert At(s.pcs, Failed) == {} && Fresh(s.pcs, s.tries, k) == At(s.pcs, Start);
    var a1, s1 := Gather(p, k, s);
    var a2, s2 := Clash(p, k, s1);
    var a3, s3 := Relay(p, k, s2);
    var a4;
    a4, s' := BackOff(p, k, s3);
    Concat(Lucky, s2, a3, s3, a4, s');
    Concat(Lucky, s1, a2, s2, a3 + a4, s');
    acts := a1 + (a2 + (a3 + a4));
    Concat(Lucky, s, a1, s1, a2 + (a3 + a4), s');
  }

  /** k rounds, and nobody has got anywhere. */
  lemma {:induction false} Rounds(p: State, k: nat) returns (acts: seq<Action>, s: State)
    requires Entangled(p) && AtHead(p, 0, p) && (p.mode.Blocking? ==> k <= p.mode.limit)
    ensures Run(Lucky, p, acts, s) && AtHead(p, k, s)
  {
    if k == 0 {
      acts, s := [], p;
    } else {
      var before, m, round;
      before, m := Rounds(p, k - 1);
      round, s := OneRound(p, k - 1, m);
      acts := before + round;
      Concat(Lucky, p, before, m, round, s);
    }
  }

  /** The attempts used up, everyone who has not left does. */
  ghost predicate Leaving(p: State, s: State) {
    && StateOf(p, s) && p.mode.Blocking?
    && forall t :: 0 <= t < |s.pcs| ==>
         if s.pcs[t] == Ended then s.result[t] == -1 else s.pcs[t] == Start && s.tries[t] == p.mode.limit
  }

  lemma {:induction false} AllGiveUp(p: State, s: State) returns (acts: seq<Action>, s': State)
    requires Leaving(p, s)
    ensures Run(Lucky, s, acts, s') && Leaving(p, s') && Finished(s')
    decreases At(s.pcs, Start)
  {
    if At(s.pcs, Start) == {} {
      acts, s' := [], s;
      forall t | 0 <= t < |s.pcs| ensures s.pcs[t] == Ended {
        assert t !in At(s.pcs, Start);
      }
    } else {
      var t :| t in At(s.pcs, Start);
      var m := Go(p, s, GiveUp(t));
      Moved(s.pcs, t, Ended, Start);
      var rest;
      rest, s' := AllGiveUp(p, m);
      acts := [GiveUp(t)] + rest;
      Glue(s, GiveUp(t), m, rest, s');
    }
  }

  /**
    Livelock: whatever the attempt limit and however many threads, entangled loops have a
    run in which all fail every attempt, although no lock is ever kept and no try_lock
    fails on a free lock.
   */
  lemma LivelockForEveryLimit(p: State) returns (acts: seq<Action>, s: State)
    requires Init(p) && Entangled(p) && p.mode.Blocking?
    ensures Livelock(p, acts, s)
  {
    InitInv(p);
    var rounds, m := Rounds(p, p.mode.limit);
    var ends;
    ends, s := AllGiveUp(p, m);
    acts := rounds + ends;
    Concat(Lucky, p, rounds, m, ends, s);
    UnluckyRun(p, acts, s);
  }

  predicate HasWon(s: State, u: nat)
    requires Shape(s) && u < |s.pcs|
  {
    s.pcs[u] == Both || s.pcs[u] == Releasing || (s.pcs[u] == Ended && s.result[u] != -1)
  }

  ghost predicate SomebodyWon(s: State)
    requires Shape(s)
  {
    exists u :: 0 <= u < |s.pcs| && HasWon(s, u)
  }

  /** If t's second lock is nobody's first, only a thread that has both locks can make t's try fail. */
  ghost predicate FailsToWinner(s: State, t: nat) {
    && Inv(s) && t < |s.pairs| && !IsFirst(s, s.pairs[t].second)
    && (s.pcs[t] == Failed || s.tries[t] > 0 ==> SomebodyWon(s))
  }

  lemma WinnersStay(s: State, a: Action, s': State)
    requires Inv(s) && Next(s, a, s') && SomebodyWon(s)
    ensures Shape(s') && SomebodyWon(s')
  {
    var u :| 0 <= u < |s.pcs| && HasWon(s, u);
    assert HasWon(s', u);
  }

  /** Whoever owns a lock that is nobody's first has both its locks. */
  lemma OwnerOfOthersSecond(s: State, lock: nat)
    requires Inv(s) && !IsFirst(s, lock) && lock in s.owner
    ensures SomebodyWon(s)
  {
    var u := s.owner[lock];
    assert ThreadOk(s, u);
    assert lock in Held(s, u);
    assert s.pairs[u].first != lock;
    assert HasWon(s, u);
  }

  lemma FailsToWinnerStep(s: State, a: Action, s': State, t: nat)
    requires FailsToWinner(s, t) && Lucky(s, a, s')
    ensures FailsToWinner(s', t)
  {
    StepInv(s, a, s');
    assert IsFirst(s', s'.pairs[t].second) ==> IsFirst(s, s.pairs[t].second);
    if s.pairs[t].second in s.owner {
      OwnerOfOthersSecond(s, s.pairs[t].second);
    }
    if SomebodyWon(s) {
      WinnersStay(s, a, s');
    }
  }

  lemma FailuresMeanAWinner(p: State, acts: seq<Action>, s: State, t: nat)
    requires Init(p) && Run(Next, p, acts, s) && NoBadLuck(acts)
    requires t < |p.pairs| && !IsFirst(p, p.pairs[t].second)
    ensures FailsToWinner(s, t) && s.mode == p.mode
    ensures s.pcs[t] == Ended && s.result[t] == -1 ==> s.mode == Blocking(s.tries[t])
  {
    InitInv(p);
    LuckyRun(p, acts, s);
    var inv := (x: State) => FailsToWinner(x, t) && x.mode == p.mode;
    forall x, a, y | inv(x) && Lucky(x, a, y) ensures inv(y) { FailsToWinnerStep(x, a, y, t); }
    RunInvariant(Lucky, inv, p, acts, s);
    assert ThreadOk(s, t);
  }

  lemma NotAllFail(p: State, acts: seq<Action>, s: State, t: nat)
    requires Init(p) && p.mode.Blocking? && p.mode.limit > 0
    requires t < |p.pairs| && !IsFirst(p, p.pairs[t].second)
    ensures !Livelock(p, acts, s)
  {
    if Livelock(p, acts, s) {
      FailuresMeanAWinner(p, acts, s, t);
      assert false;
    }
  }

  /**
    With a positive limit, any number of threads can all fail every attempt exactly if
    every thread's second lock is the first of some thread.
   */
  lemma LivelockExactlyWhenEntangled(p: State)
    requires Init(p) && p.mode.Blocking? && p.mode.limit > 0
    ensures Entangled(p) <==> exists acts, s :: Livelock(p, acts, s)
  {
    if Entangled(p) {
      var acts, s := LivelockForEveryLimit(p);
      assert Livelock(p, acts, s);
    } else {
      var t :| 0 <= t < |p.pairs| && !IsFirst(p, p.pairs[t].second);
      forall acts, s ensures !Livelock(p, acts, s) {
        NotAllFail(p, acts, s, t);
      }
    }
  }

  /** Two threads at the start, each with the other's first lock as its second. */
  ghost predicate Opposite(p: State) {
    && Init(p) && |p.pairs| == 2
    && p.pairs[0].first == p.pairs[1].second && p.pairs[0].second == p.pairs[1].first
  }

  lemma TwoEntangled(p: State)
    requires Init(p) && |p.pairs| == 2
    ensures Entangled(p) <==> Opposite(p)
  {
    var a, b := p.pairs[0], p.pairs[1];
    assert a.first != a.second && b.first != b.second;
    assert IsFirst(p, a.second) <==> a.second == b.first by {
      if a.second == b.first { assert p.pairs[1].first == a.second; }
    }
    assert IsFirst(p, b.second) <==> b.second == a.first by {
      if b.second == a.first { assert p.pairs[0].first == b.second; }
    }
  }

  /** Two threads with a positive limit can both fail every attempt exactly if their orders are opposite. */
  lemma LivelockExactlyWhenOpposite(p: State)
    requires Init(p) && p.mode.Blocking? && p.mode.limit > 0 && |p.pairs| == 2
    ensures Opposite(p) <==> exists acts, s :: Livelock(p, acts, s)
  {
    TwoEntangled(p);
    LivelockExactlyWhenEntangled(p);
  }

  // ---------- when somebody can still win ----------

  predicate Contender(pc: Pc) { pc == Start || pc == Trying || pc == Failed }

  /** Thread t has an attempt under way that has not failed, or one left to make. */
  predicate TryAhead(s: State, t: nat) {
    && Shape(s) && t < |s.pcs|
    && match s.pcs[t]
       case Start => AttemptsLeft(s.mode, s.tries[t])
       case Trying => true
       case Failed => AttemptsLeft(s.mode, s.tries[t] + 1)
       case _ => false
  }

  /** Between s and t, thread u has got both locks. */
  predicate Wins(s: State, t: State, u: nat) {
    u < |s.pcs| == |t.pcs| && Contender(s.pcs[u]) && t.pcs[u] == Both
  }

  function Rank(pc: Pc): nat {
    match pc
    case Failed => 2
    case Start => 1
    case _ => 0
  }

  function HoldWeight(pc: Pc): nat {
    match pc
    case Trying => 4
    case Failed => 3
    case Both => 2
    case Releasing => 1
    case _ => 0
  }

  /** A thread in the way either wins itself or comes closer to letting its locks go. */
  lemma HolderMoves(s: State, u: nat) returns (a: Action, m: State)
    requires Inv(s) && u < |s.pcs| && Held(s, u) != {}
    ensures a == OwnStep(s, u) && Next(s, a, m) && Inv(m)
    ensures m.mode == s.mode && m.tries == s.tries[u := m.tries[u]] && m.pcs == s.pcs[u := m.pcs[u]]
    ensures Wins(s, m, u) || Sum(HoldWeight, m.pcs) < Sum(HoldWeight, s.pcs)
    ensures Contender(m.pcs[u]) ==> Contender(s.pcs[u])
  {
    a := OwnStep(s, u);
    m := Apply(s, a);
    StepInv(s, a, m);
    SumUpdate(HoldWeight, s.pcs, u, m.pcs[u]);
  }

  /** Thread t goes on by itself: it wins, or its rank falls. */
  lemma OwnMove(s: State, t: nat) returns (a: Action, m: State)
    requires Inv(s) && TryAhead(s, t)
    requires s.pcs[t] == Start ==> s.pairs[t].first !in s.owner
    requires s.pcs[t] == Trying ==> s.pairs[t].second !in s.owner
    ensures Next(s, a, m) && Inv(m) && m.pcs == s.pcs[t := m.pcs[t]]
    ensures Wins(s, m, t) || (TryAhead(m, t) && Rank(m.pcs[t]) < Rank(s.pcs[t]))
  {
    a := OwnStep(s, t);
    m := Apply(s, a);
    StepInv(s, a, m);
  }

  /** Clear the way for thread t, then let it run: somebody gets both locks. */
  lemma {:induction false} MakeWin(s: State, t: nat) returns (acts: seq<Action>, s': State, u: nat)
    requires Inv(s) && TryAhead(s, t)
    ensures Run(Next, s, acts, s') && Wins(s, s', u)
    decreases Rank(s.pcs[t]), Sum(HoldWeight, s.pcs)
  {
    assert ThreadOk(s, t);
    var lock := if s.pcs[t] == Trying then s.pairs[t].second else s.pairs[t].first;
    var a, m, w;
    if s.pcs[t] != Failed && lock in s.owner {
      w := s.owner[lock];
      assert ThreadOk(s, w) && lock in Held(s, w);
      a, m := HolderMoves(s, w);
    } else {
      w := t;
      a, m := OwnMove(s, t);
    }
    if Wins(s, m, w) {
      acts, s', u := [a], m, w;
      Single(Next, s, a, m);
    } else {
      var rest;
      rest, s', u := MakeWin(m, t);
      acts := [a] + rest;
      Prepend(Next, s, a, m, rest, s');
    }
  }

  /** The contenders of s0 are out of attempts in s. */
  ghost predicate Hopeless(s0: State, s: State) {
    && Shape(s) && |s.pcs| == |s0.pcs|
    && (forall t :: 0 <= t < |s.pcs| && Contender(s0.pcs[t]) ==>
          !TryAhead(s, t) && (s.pcs[t] == Ended || Contender(s.pcs[t])))
  }

  lemma HopelessStep(s0: State, s: State, a: Action, s': State)
    requires Hopeless(s0, s) && Next(s, a, s')
    ensures Hopeless(s0, s')
  {
    forall t | 0 <= t < |s'.pcs| && Contender(s0.pcs[t])
      ensures !TryAhead(s', t) && (s'.pcs[t] == Ended || Contender(s'.pcs[t]))
    {
      assert !TryAhead(s, t);
    }
  }

  lemma HopelessStays(s0: State, acts: seq<Action>, s: State)
    requires Hopeless(s0, s0) && Run(Next, s0, acts, s)
    ensures Hopeless(s0, s)
  {
    var inv := (x: State) => Hopeless(s0, x);
    forall x, a, y | inv(x) && Next(x, a, y) ensures inv(y) { HopelessStep(s0, x, a, y); }
    RunInvariant(Next, inv, s0, acts, s);
  }

  /**
    From any reachable state, some continuation lets a thread get both locks exactly
    if some thread still has an attempt that has not failed.
   */
  lemma SomebodyCanWinExactly(s0: State, acts: seq<Action>, s: State)
    requires Init(s0) && Run(Next, s0, acts, s)
    ensures (exists t :: TryAhead(s, t)) <==> (exists more, s', u :: Run(Next, s, more, s') && Wins(s, s', u))
  {
    Reachable(s0, acts, s);
    if t :| TryAhead(s, t) {
      var more, s', u := MakeWin(s, t);
      assert Run(Next, s, more, s') && Wins(s, s', u);
    } else {
      forall more, s', u | Run(Next, s, more, s') ensures !Wins(s, s', u) {
        HopelessStays(s, more, s');
      }
    }
  }

  lemma OwnerOfItsSecond(s: State, u: nat)
    requires Inv(s) && u < |s.pcs|
    requires s.pairs[u].second in s.owner && s.owner[s.pairs[u].second] == u
    ensures s.pairs[u].first in s.owner && s.owner[s.pairs[u].first] == u && s.pcs[u] == Both
  {
    assert ThreadOk(s, u) && s.pairs[u].second in Held(s, u);
  }

  /** When all threads take the locks in the same order, a try of the second lock never finds it taken. */
  lemma SameOrderSecondIsFree(s0: State, acts: seq<Action>, s: State, t: nat)
    requires Init(s0) && Run(Next, s0, acts, s)
    requires Shape(s) && forall i, j :: 0 <= i < j < |s.pairs| ==> s.pairs[i] == s.pairs[j]
    requires t < |s.pcs| && s.pcs[t] == Trying
    ensures s.pairs[t].second !in s.owner
  {
    Reachable(s0, acts, s);
    assert ThreadOk(s, t);
    if s.pairs[t].second in s.owner {
      OwnerOfItsSecond(s, s.owner[s.pairs[t].second]);
      assert false;
    }
  }

  // ---------- the bounded loop ends ----------

  /** Steps thread t can still take before its loop ends: three an attempt and one to give up. */
  function StepsLeft(s: State, t: nat): nat
    requires Shape(s) && t < |s.pcs|
  {
    if s.mode.Polling? || s.tries[t] > s.mode.limit then 0
    else
      var left := 3 * (s.mode.limit - s.tries[t]);
      match s.pcs[t]
      case Start => left + 1
      case Trying => left
      case Failed => if left == 0 then 0 else left - 1
      case Both => 2
      case Releasing => 1
      case Ended => 0
  }

  function Lefts(s: State): seq<nat> {
    if Shape(s) then seq(|s.pcs|, t requires 0 <= t < |s.pcs| => StepsLeft(s, t)) else []
  }

  function Measure(s: State): nat { Sum(Identity, Lefts(s)) }

  ghost predicate BlockingInv(s: State) { Inv(s) && s.mode.Blocking? }

  lemma OwnStepPays(s: State, a: Action, s': State)
    requires BlockingInv(s) && Next(s, a, s') && Shape(s')
    ensures StepsLeft(s', a.t) + 1 <= StepsLeft(s, a.t)
    ensures forall t :: 0 <= t < |s.pcs| && t != a.t ==> StepsLeft(s', t) == StepsLeft(s, t)
  {
    assert ThreadOk(s, a.t);
  }

  lemma StepPays(s: State, a: Action, s': State)
    requires BlockingInv(s) && Next(s, a, s')
    ensures BlockingInv(s') && Measure(s') + 1 <= Measure(s)
  {
    StepInv(s, a, s');
    OwnStepPays(s, a, s');
    assert Lefts(s') == Lefts(s)[a.t := StepsLeft(s', a.t)];
    SumUpdate(Identity, Lefts(s), a.t, StepsLeft(s', a.t));
  }

  lemma RunPays(s0: State, acts: seq<Action>, s: State)
    requires BlockingInv(s0) && Run(Next, s0, acts, s)
    ensures |acts| + Measure(s) <= Measure(s0)
  {
    var measure := (x: State) => Measure(x) as int;
    forall x, a, y | BlockingInv(x) && Next(x, a, y) ensures BlockingInv(y) && measure(y) + 1 <= measure(x) {
      StepPays(x, a, y);
    }
    RunShrinks(Next, BlockingInv, measure, s0, acts, s);
  }

  /** However the threads interleave and the tries fail, the bounded loops end within 3 limit + 1 steps a thread. */
  lemma BlockingRunsAreFinite(s0: State, acts: seq<Action>, s: State)
    requires Init(s0) && s0.mode.Blocking? && Run(Next, s0, acts, s)
    ensures |acts| <= (3 * s0.mode.limit + 1) * |s0.pcs|
    ensures AtRest(Next, s) ==> Finished(s)
  {
    InitInv(s0);
    RunPays(s0, acts, s);
    SumConstant(Identity, Lefts(s0), 3 * s0.mode.limit + 1);
    if AtRest(Next, s) && !Finished(s) {
      var a := NeverStuck(s0, acts, s);
      assert Next(s, a, Apply(s, a));
    }
  }

  /** At the end the out-parameter is the winning attempt, or -1 for a thread that used up every attempt. */
  lemma ResultsTellTheTruth(s0: State, acts: seq<Action>, s: State, t: nat)
    requires Init(s0) && Run(Next, s0, acts, s) && Shape(s) && t < |s.pcs| && s.pcs[t] == Ended
    ensures s.result[t] == -1 <==> s.mode == Blocking(s.tries[t])
    ensures s.result[t] != -1 ==> s.result[t] == s.tries[t] && AttemptsLeft(s.mode, s.tries[t])
  {
    Reachable(s0, acts, s);
    assert ThreadOk(s, t);
  }

  // ---------- what the scheduler may do ----------

  /** Any try of a free lock may fail for no reason, and the second try is always made. */
  lemma AnyTryMayFail(s: State, t: nat, fail: bool)
    requires Shape(s) && t < |s.pcs|
    ensures s.pcs[t] == Trying ==> Enabled(s, TrySecond(t, fail))
    ensures s.pcs[t] == Start && !s.mode.Blocking? ==> Enabled(s, TakeFirst(t, fail))
  {
  }

  // ---------- the loops, in place ----------

  /** The locks and each thread's position in its loop, updated in place by one method a lock operation. */
  class Loops {
    const mode: Mode
    const pairs: seq<Pair>
    var owner: map<nat, nat>
    var pcs: seq<Pc>
    var tries: seq<nat>
    var result: seq<int>

    ghost function Snapshot(): State
      reads this
    {
      State(mode, pairs, owner, pcs, tries, result)
    }

    ghost predicate Valid()
      reads this
    {
      Inv(Snapshot())
    }

    constructor (mode: Mode, pairs: seq<Pair>)
      requires forall t :: 0 <= t < |pairs| ==> pairs[t].first != pairs[t].second
      ensures Init(Snapshot()) && Valid() && this.mode == mode && this.pairs == pairs
    {
      this.mode, this.pairs := mode, pairs;
      owner, pcs := map[], seq(|pairs|, _ => Start);
      tries, result := seq(|pairs|, _ => 0), seq(|pairs|, _ => 0);
      new;
      InitInv(Snapshot());
    }

    /** Takes the first lock if it can; `fail` is a spurious failure of a polling try. */
    method TakeFirst(t: nat, fail: bool) returns (ok: bool)
      requires Valid() && Enabled(Snapshot(), Action.TakeFirst(t, fail))
      modifies `owner, `pcs
      ensures Valid() && Snapshot() == Apply(old(Snapshot()), Action.TakeFirst(t, fail))
      ensures ok <==> pairs[t].first in owner && owner[pairs[t].first] == t
      ensures mode.Blocking? ==> ok
      ensures ok <==> pairs[t].first !in old(owner) && !fail
      ensures ok ==> owner == old(owner)[pairs[t].first := t] && pcs == old(pcs)[t := Trying]
      ensures !ok ==> owner == old(owner) && pcs == old(pcs)
    {
      ghost var before := Snapshot();
      assert ThreadOk(before, t);
      ok := pairs[t].first !in owner && !fail;
      if ok {
        owner, pcs := owner[pairs[t].first := t], pcs[t := Trying];
      }
      StepInv(before, Action.TakeFirst(t, fail), Snapshot());
    }

    method TrySecond(t: nat, fail: bool) returns (ok: bool)
      requires Valid() && Enabled(Snapshot(), Action.TrySecond(t, fail))
      modifies `owner, `pcs
      ensures Valid() && Snapshot() == Apply(old(Snapshot()), Action.TrySecond(t, fail))
      ensures ok <==> pairs[t].second in owner && owner[pairs[t].second] == t
      ensures ok <==> !fail && pairs[t].second !in old(owner)
      ensures owner == if ok then old(owner)[pairs[t].second := t] else old(owner)
      ensures pcs == old(pcs)[t := if ok then Both else Failed]
    {
      ghost var before := Snapshot();
      assert ThreadOk(before, t);
      ok := pairs[t].second !in owner && !fail;
      if ok {
        owner, pcs := owner[pairs[t].second := t], pcs[t := Both];
      } else {
        pcs := pcs[t := Failed];
      }
      StepInv(before, Action.TrySecond(t, fail), Snapshot());
    }

    /** After a failed try: lets the first lock go, so that the thread holds nothing. */
    method LetGo(t: nat)
      requires Valid() && Enabled(Snapshot(), Action.LetGo(t))
      modifies `owner, `pcs, `tries
      ensures Valid() && Snapshot() == Apply(old(Snapshot()), Action.LetGo(t))
      ensures forall lock :: lock in owner ==> owner[lock] != t
      ensures owner == old(owner) - {pairs[t].first} && pcs == old(pcs)[t := Start]
      ensures tries == old(tries)[t := old(tries)[t] + 1]
    {
      ghost var before := Snapshot();
      owner, pcs, tries := owner - {pairs[t].first}, pcs[t := Start], tries[t := tries[t] + 1];
      StepInv(before, Action.LetGo(t), Snapshot());
      assert ThreadOk(Snapshot(), t);
    }

    method ReleaseSecond(t: nat)
      requires Valid() && Enabled(Snapshot(), Action.ReleaseSecond(t))
      modifies `owner, `pcs
      ensures Valid() && Snapshot() == Apply(old(Snapshot()), Action.ReleaseSecond(t))
      ensures owner == old(owner) - {pairs[t].second} && pcs == old(pcs)[t := Releasing]
    {
      ghost var before := Snapshot();
      owner, pcs := owner - {pairs[t].second}, pcs[t := Releasing];
      StepInv(before, Action.ReleaseSecond(t), Snapshot());
    }

    /** The last unlock of a winner, which reports its attempt. */
    method ReleaseFirst(t: nat)
      requires Valid() && Enabled(Snapshot(), Action.ReleaseFirst(t))
      modifies `owner, `pcs, `result
      ensures Valid() && Snapshot() == Apply(old(Snapshot()), Action.ReleaseFirst(t))
      ensures result[t] == tries[t] && forall lock :: lock in owner ==> owner[lock] != t
      ensures owner == old(owner) - {pairs[t].first} && pcs == old(pcs)[t := Ended]
      ensures result == old(result)[t := tries[t]]
    {
      ghost var before := Snapshot();
      owner, pcs, result := owner - {pairs[t].first}, pcs[t := Ended], result[t := tries[t]];
      StepInv(before, Action.ReleaseFirst(t), Snapshot());
      assert ThreadOk(Snapshot(), t);
    }

    method GiveUp(t: nat)
      requires Valid() && Enabled(Snapshot(), Action.GiveUp(t))
      modifies `pcs, `result
      ensures Valid() && Snapshot() == Apply(old(Snapshot()), Action.GiveUp(t))
      ensures result[t] == -1 && mode == Blocking(tries[t])
      ensures pcs == old(pcs)[t := Ended] && result == old(result)[t := -1]
    {
      ghost var before := Snapshot();
      assert ThreadOk(before, t);
      pcs, result := pcs[t := Ended], result[t := -1];
      StepInv(before, Action.GiveUp(t), Snapshot());
    }
  }
}
