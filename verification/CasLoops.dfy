/**
  The two compare-and-swap loops, run by any number of threads on one cell.

  `Add` is the fetch-and-add built from CAS, `Max` the atomic maximum, which leaves
  early when the value it has read is already large enough.  Loads and CAS are single
  steps; a CAS that fails, spuriously or not, reloads the expected value.  `log` is
  ghost history: one entry a successful CAS.
 */
module CasLoops {
  import opened Runs
  import opened Sums

  datatype Kind = Add | Max

  datatype Pc = Begin | Loaded(seen: int)

  /** A successful CAS of thread t: `was` is the value it replaced, which my_add returns. */
  datatype Entry = Entry(t: nat, was: int, arg: int)

  /** Thread t calls the loop with jobs[t][0], jobs[t][1], ... in turn. */
  datatype State = State(
    kind: Kind, start: int, jobs: seq<seq<int>>,
    cell: int, next: seq<nat>, pcs: seq<Pc>, log: seq<Entry>)

  datatype Action =
    | Load(t: nat)
    | Cas(t: nat, fail: bool)
    | Quit(t: nat)

  // ---------- the steps ----------

  predicate Shape(s: State) {
    && |s.pcs| == |s.next| == |s.jobs|
    && forall t :: 0 <= t < |s.pcs| ==>
         s.next[t] <= |s.jobs[t]| && (s.pcs[t].Loaded? ==> s.next[t] < |s.jobs[t]|)
  }

  function Arg(s: State, t: nat): int
    requires Shape(s) && t < |s.pcs| && s.next[t] < |s.jobs[t]|
  {
    s.jobs[t][s.next[t]]
  }

  predicate Enabled(s: State, a: Action) {
    && Shape(s) && a.t < |s.pcs| && s.next[a.t] < |s.jobs[a.t]|
    && match a
       case Load(t) => s.pcs[t].Begin?
       case Cas(t, fail) => s.pcs[t].Loaded? && (s.kind.Max? ==> Arg(s, t) > s.pcs[t].seen)
       case Quit(t) => s.pcs[t].Loaded? && s.kind.Max? && Arg(s, t) <= s.pcs[t].seen
  }

  function NewValue(kind: Kind, was: int, arg: int): int { if kind.Add? then was + arg else arg }

  predicate Succeeds(s: State, a: Action)
    requires Enabled(s, a)
  {
    a.Cas? && s.cell == s.pcs[a.t].seen && !a.fail
  }

  function Apply(s: State, a: Action): State
    requires Enabled(s, a)
  {
    match a
    case Load(t) => s.(pcs := s.pcs[t := Loaded(s.cell)])
    case Cas(t, fail) =>
      if s.cell == s.pcs[t].seen && !fail then
        s.(cell := NewValue(s.kind, s.cell, Arg(s, t)), log := s.log + [Entry(t, s.cell, Arg(s, t))],
           pcs := s.pcs[t := Begin], next := s.next[t := s.next[t] + 1])
      else s.(pcs := s.pcs[t := Loaded(s.cell)])
    case Quit(t) => s.(pcs := s.pcs[t := Begin], next := s.next[t := s.next[t] + 1])
  }

  ghost predicate Next(s: State, a: Action, t: State) {
    Enabled(s, a) && t == Apply(s, a)
  }

  ghost predicate Init(s: State) {
    && Shape(s) && s.cell == s.start && s.log == []
    && forall t :: 0 <= t < |s.pcs| ==> s.next[t] == 0 && s.pcs[t] == Begin
  }

  ghost predicate Finished(s: State) {
    Shape(s) && forall t :: 0 <= t < |s.pcs| ==> s.next[t] == |s.jobs[t]|
  }

  // ---------- what the log means ----------

  /** The cell after the logged operations, each done at once. */
  function Replay(kind: Kind, start: int, log: seq<Entry>): int {
    if log == [] then start
    else NewValue(kind, Replay(kind, start, log[..|log| - 1]), log[|log| - 1].arg)
  }

  function Tally(s: seq<int>): int {
    if s == [] then 0 else Tally(s[..|s| - 1]) + s[|s| - 1]
  }

  function Args(log: seq<Entry>): seq<int> { seq(|log|, i requires 0 <= i < |log| => log[i].arg) }

  /** What thread t has done, in its order. */
  function ArgsOf(log: seq<Entry>, t: nat): seq<int> {
    if log == [] then []
    else
      var last := log[|log| - 1];
      ArgsOf(log[..|log| - 1], t) + if last.t == t then [last.arg] else []
  }

  lemma {:induction false} TallyUpdate(s: seq<int>, i: nat, x: int)
    requires i < |s|
    ensures Tally(s[i := x]) == Tally(s) - s[i] + x
  {
    var n := |s| - 1;
    if i == n {
      assert s[i := x][..n] == s[..n];
    } else {
      assert s[i := x][..n] == s[..n][i := x];
      TallyUpdate(s[..n], i, x);
    }
  }

  lemma {:induction false} AddReplay(start: int, log: seq<Entry>)
    ensures Replay(Add, start, log) == start + Tally(Args(log))
  {
    if log != [] {
      var n := |log| - 1;
      AddReplay(start, log[..n]);
      assert Args(log)[..n] == Args(log[..n]);
    }
  }

  lemma {:induction false} TallyZero(s: seq<int>)
    requires forall i :: 0 <= i < |s| ==> s[i] == 0
    ensures Tally(s) == 0
  {
    if s != [] {
      TallyZero(s[..|s| - 1]);
    }
  }

  // ---------- the invariant ----------

  /** Each entry replaced the value the entries before it had produced. */
  ghost predicate ChainOk(s: State) {
    && s.cell == Replay(s.kind, s.start, s.log)
    && (forall i :: 0 <= i < |s.log| ==> s.log[i].was == Replay(s.kind, s.start, s.log[..i]))
    && (s.kind.Max? ==> forall i :: 0 <= i < |s.log| ==> s.log[i].was < s.log[i].arg)
  }

  /** The entries of a thread are its finished calls: all of them for Add, some for Max. */
  ghost predicate OrderOk(s: State)
    requires Shape(s)
  {
    && (s.kind.Add? ==> forall t :: 0 <= t < |s.next| ==> ArgsOf(s.log, t) == s.jobs[t][..s.next[t]])
    && (forall i :: 0 <= i < |s.log| ==>
          s.log[i].t < |s.next| && s.log[i].arg in s.jobs[s.log[i].t][..s.next[s.log[i].t]])
  }

  /** A maximum never goes down, so a stale value is no larger than the cell. */
  ghost predicate MaxOk(s: State)
    requires Shape(s)
  {
    s.kind.Max? ==>
      && s.start <= s.cell
      && (forall t :: 0 <= t < |s.pcs| && s.pcs[t].Loaded? ==> s.pcs[t].seen <= s.cell)
      && (forall t, j :: 0 <= t < |s.next| && 0 <= j < s.next[t] ==> s.jobs[t][j] <= s.cell)
  }

  /** What each thread's finished calls add up to. */
  function Dones(s: State): seq<int>
    requires Shape(s)
  {
    seq(|s.next|, t requires 0 <= t < |s.next| => Tally(s.jobs[t][..s.next[t]]))
  }

  ghost predicate SumOk(s: State)
    requires Shape(s)
  {
    s.kind.Add? ==> s.cell == s.start + Tally(Dones(s))
  }

  ghost predicate Inv(s: State) {
    Shape(s) && ChainOk(s) && OrderOk(s) && MaxOk(s) && SumOk(s)
  }

  ghost predicate SameProgram(s0: State, s: State) {
    s.kind == s0.kind && s.start == s0.start && s.jobs == s0.jobs
  }

  lemma InitInv(s: State)
    requires Init(s)
    ensures Inv(s)
  {
    TallyZero(Dones(s));
  }

  lemma StepShape(s: State, a: Action, s': State)
    requires Next(s, a, s')
    ensures Shape(s') && SameProgram(s, s')
  {
  }

  lemma ReplayOneMore(kind: Kind, start: int, log: seq<Entry>, e: Entry)
    ensures Replay(kind, start, log + [e]) == NewValue(kind, Replay(kind, start, log), e.arg)
    ensures forall i :: 0 <= i <= |log| ==> (log + [e])[..i] == log[..i]
  {
    assert (log + [e])[..|log|] == log;
  }

  lemma ChainWin(s: State, a: Action, s': State)
    requires Next(s, a, s') && ChainOk(s) && Succeeds(s, a)
    ensures ChainOk(s')
  {
    var e := Entry(a.t, s.cell, Arg(s, a.t));
    ReplayOneMore(s.kind, s.start, s.log, e);
    assert s'.log == s.log + [e] && s.log[..|s.log|] == s.log;
    forall i | 0 <= i < |s'.log| ensures s'.log[i].was == Replay(s.kind, s.start, s'.log[..i]) {
      assert s'.log[..i] == s.log[..i];
    }
  }

  lemma StepChain(s: State, a: Action, s': State)
    requires Next(s, a, s') && ChainOk(s)
    ensures ChainOk(s')
  {
    if Succeeds(s, a) {
      ChainWin(s, a, s');
    } else {
      assert s'.log == s.log && s'.cell == s.cell;
    }
  }

  lemma StepOrder(s: State, a: Action, s': State)
    requires Next(s, a, s') && OrderOk(s) && Shape(s')
    ensures OrderOk(s')
  {
    StepArgs(s, a, s');
    forall i | 0 <= i < |s'.log|
      ensures s'.log[i].t < |s'.next| && s'.log[i].arg in s'.jobs[s'.log[i].t][..s'.next[s'.log[i].t]]
    {
      if i < |s.log| {
        assert s.log[i].arg in s.jobs[s.log[i].t][..s.next[s.log[i].t]];
        assert s.jobs[s.log[i].t][..s.next[s.log[i].t]] <= s'.jobs[s.log[i].t][..s'.next[s.log[i].t]];
      } else {
        assert s'.jobs[a.t][..s'.next[a.t]][s.next[a.t]] == Arg(s, a.t);
      }
    }
  }

  lemma StepArgs(s: State, a: Action, s': State)
    requires Next(s, a, s') && OrderOk(s) && Shape(s')
    ensures s.kind.Add? ==> forall t :: 0 <= t < |s'.next| ==> ArgsOf(s'.log, t) == s'.jobs[t][..s'.next[t]]
  {
    if s.kind.Add? {
      forall t | 0 <= t < |s'.next| ensures ArgsOf(s'.log, t) == s'.jobs[t][..s'.next[t]] {
        assert ArgsOf(s.log, t) == s.jobs[t][..s.next[t]];
        if Succeeds(s, a) {
          assert s'.log[..|s.log|] == s.log;
        }
      }
    }
  }

  lemma StepMax(s: State, a: Action, s': State)
    requires Next(s, a, s') && MaxOk(s) && Shape(s')
    ensures MaxOk(s') && (s.kind.Max? ==> s.cell <= s'.cell)
  {
  }

  lemma StepSum(s: State, a: Action, s': State)
    requires Next(s, a, s') && SumOk(s) && Shape(s')
    ensures SumOk(s')
  {
    var t := a.t;
    if s.kind.Add? {
      if Succeeds(s, a) {
        var done, done' := s.jobs[t][..s.next[t]], s.jobs[t][..s.next[t] + 1];
        assert done'[..|done'| - 1] == done;
        assert Dones(s') == Dones(s)[t := Tally(done')];
        TallyUpdate(Dones(s), t, Tally(done'));
      } else {
        assert Dones(s') == Dones(s);
      }
    }
  }

  lemma StepInv(s: State, a: Action, s': State)
    requires Inv(s) && Next(s, a, s')
    ensures Inv(s') && SameProgram(s, s') && (s.kind.Max? ==> s.cell <= s'.cell)
  {
    StepShape(s, a, s');
    StepChain(s, a, s');
    StepOrder(s, a, s');
    StepMax(s, a, s');
    StepSum(s, a, s');
  }

  lemma Reachable(s0: State, acts: seq<Action>, s: State)
    requires Init(s0) && Run(Next, s0, acts, s)
    ensures Inv(s) && SameProgram(s0, s)
  {
    InitInv(s0);
    var inv := (x: State) => Inv(x) && SameProgram(s0, x);
    forall x, a, y | inv(x) && Next(x, a, y) ensures inv(y) { StepInv(x, a, y); }
    RunInvariant(Next, inv, s0, acts, s);
  }

  // ---------- fetch and add ----------

  lemma CellIsSum(s: State)
    requires ChainOk(s)
    ensures s.kind.Add? ==> s.cell == s.start + Tally(Args(s.log))
  {
    AddReplay(s.start, s.log);
  }

  lemma ReturnIsPrefixSum(s: State, i: nat)
    requires ChainOk(s) && s.kind.Add? && i < |s.log|
    ensures s.log[i].was == s.start + Tally(Args(s.log)[..i])
  {
    AddReplay(s.start, s.log[..i]);
    assert Args(s.log)[..i] == Args(s.log[..i]);
  }

  /**
    The additions are linear: the value each call returns is the initial value plus the
    deltas applied before its own, the cell is the initial value plus all of them, and
    each thread's deltas are applied once each in its order.
   */
  lemma AdditionsAreLinear(s0: State, acts: seq<Action>, s: State)
    requires Init(s0) && s0.kind.Add? && Run(Next, s0, acts, s)
    ensures s.cell == s0.start + Tally(Args(s.log))
    ensures forall i :: 0 <= i < |s.log| ==> s.log[i].was == s0.start + Tally(Args(s.log)[..i])
    ensures Shape(s) && s.jobs == s0.jobs
    ensures forall t :: 0 <= t < |s0.jobs| ==> ArgsOf(s.log, t) == s0.jobs[t][..s.next[t]]
  {
    Reachable(s0, acts, s);
    CellIsSum(s);
    forall i | 0 <= i < |s.log| ensures s.log[i].was == s0.start + Tally(Args(s.log)[..i]) {
      ReturnIsPrefixSum(s, i);
    }
  }

  lemma UnitArgs(s: State)
    requires Inv(s) && forall t, j :: 0 <= t < |s.jobs| && 0 <= j < |s.jobs[t]| ==> s.jobs[t][j] == 1
    ensures forall i :: 0 <= i < |s.log| ==> s.log[i].arg == 1
  {
    forall i | 0 <= i < |s.log| ensures s.log[i].arg == 1 {
      assert s.log[i].arg in s.jobs[s.log[i].t][..s.next[s.log[i].t]];
    }
  }

  lemma {:induction false} ReplayOfOnes(start: int, log: seq<Entry>)
    requires forall i :: 0 <= i < |log| ==> log[i].arg == 1
    ensures Replay(Add, start, log) == start + |log|
  {
    if log != [] {
      ReplayOfOnes(start, log[..|log| - 1]);
    }
  }

  /** With deltas of one the calls return the initial value, the next one, and so on: each number once. */
  lemma UnitDeltasCountUp(s0: State, acts: seq<Action>, s: State)
    requires Init(s0) && s0.kind.Add? && Run(Next, s0, acts, s)
    requires forall t, j :: 0 <= t < |s0.jobs| && 0 <= j < |s0.jobs[t]| ==> s0.jobs[t][j] == 1
    ensures s.cell == s0.start + |s.log|
    ensures forall i :: 0 <= i < |s.log| ==> s.log[i].was == s0.start + i
  {
    Reachable(s0, acts, s);
    UnitArgs(s);
    ReplayOfOnes(s.start, s.log);
    forall i | 0 <= i < |s.log| ensures s.log[i].was == s0.start + i {
      ReplayOfOnes(s.start, s.log[..i]);
    }
  }

  /** When all threads are done the cell holds the sum of everything they were given to add. */
  lemma FinalSum(s0: State, acts: seq<Action>, s: State)
    requires Init(s0) && s0.kind.Add? && Run(Next, s0, acts, s) && Finished(s)
    ensures s.cell == s0.start + Tally(seq(|s0.jobs|, t requires 0 <= t < |s0.jobs| => Tally(s0.jobs[t])))
  {
    Reachable(s0, acts, s);
    forall t | 0 <= t < |s.jobs| ensures s.jobs[t][..s.next[t]] == s.jobs[t] {
    }
    assert Dones(s) == seq(|s0.jobs|, t requires 0 <= t < |s0.jobs| => Tally(s0.jobs[t]));
  }

  // ---------- atomic maximum ----------

  /** The cell only grows, from any reachable state on. */
  lemma {:induction false} MaxIsMonotone(s0: State, before: seq<Action>, s: State, acts: seq<Action>, s': State)
    requires Init(s0) && s0.kind.Max? && Run(Next, s0, before, s) && Run(Next, s, acts, s')
    ensures s.cell <= s'.cell
  {
    Reachable(s0, before, s);
    var inv := (x: State) => Inv(x) && x.kind.Max? && s.cell <= x.cell;
    forall x, a, y | inv(x) && Next(x, a, y) ensures inv(y) { StepInv(x, a, y); }
    RunInvariant(Next, inv, s, acts, s');
  }

  /**
    The cell is at least every candidate whose call is over, also one that left early
    on a stale value, and it is the initial value or one of those candidates.
   */
  lemma MaxAlways(s0: State, acts: seq<Action>, s: State)
    requires Init(s0) && s0.kind.Max? && Run(Next, s0, acts, s)
    ensures Shape(s) && s.jobs == s0.jobs && s0.start <= s.cell
    ensures forall t, j :: 0 <= t < |s.jobs| && 0 <= j < s.next[t] ==> s.jobs[t][j] <= s.cell
    ensures s.cell == s0.start || exists t, j :: 0 <= t < |s.jobs| && 0 <= j < s.next[t] && s.jobs[t][j] == s.cell
  {
    Reachable(s0, acts, s);
    if s.log != [] {
      var e := s.log[|s.log| - 1];
      assert s.cell == e.arg;
      assert e.arg in s.jobs[e.t][..s.next[e.t]];
    }
  }

  /** At the end it is the maximum of all there was. */
  lemma FinalMax(s0: State, acts: seq<Action>, s: State)
    requires Init(s0) && s0.kind.Max? && Run(Next, s0, acts, s) && Finished(s)
    ensures s0.start <= s.cell && forall t, j :: 0 <= t < |s0.jobs| && 0 <= j < |s0.jobs[t]| ==> s0.jobs[t][j] <= s.cell
    ensures s.cell == s0.start || exists t, j :: 0 <= t < |s0.jobs| && 0 <= j < |s0.jobs[t]| && s0.jobs[t][j] == s.cell
  {
    MaxAlways(s0, acts, s);
  }

  /** Every write raises the cell: the logged values are strictly increasing. */
  lemma MaxWritesIncrease(s0: State, acts: seq<Action>, s: State, i: nat, j: nat)
    requires Init(s0) && s0.kind.Max? && Run(Next, s0, acts, s) && i < j < |s.log|
    ensures s0.start < s.log[i].arg < s.log[j].arg
    decreases j
  {
    Reachable(s0, acts, s);
    Increase(s, i, j);
    Increase(s, 0, i);
  }

  lemma {:induction false} Increase(s: State, i: nat, j: nat)
    requires ChainOk(s) && s.kind.Max? && i <= j < |s.log|
    ensures i < j ==> s.log[i].arg < s.log[j].arg
    ensures i == 0 ==> s.start < s.log[j].arg
    decreases j
  {
    if j > 0 {
      assert s.log[j].was == Replay(s.kind, s.start, s.log[..j]);
      assert s.log[..j][|s.log[..j]| - 1] == s.log[j - 1];
      if i <= j - 1 {
        Increase(s, i, j - 1);
      }
    } else {
      assert s.log[0].was == Replay(s.kind, s.start, s.log[..0]);
    }
  }

  // ---------- progress ----------

  function Length(job: seq<int>): nat { |job| }

  /** The calls all threads make together. */
  function Calls(jobs: seq<seq<int>>): nat { Sum(Length, jobs) }

  function Credit(a: Action): nat { if a.Cas? && a.fail then 1 else 0 }

  /** CAS steps of `acts` with a spurious failure. */
  function Spurious(acts: seq<Action>): nat { Total(Credit, acts) }

  function Times(k: nat, n: nat): (r: nat)
    ensures n > 0 ==> r >= k
  {
    if n == 0 then 0 else k + Times(k, n - 1)
  }

  /** The steps charged to thread t: a fixed price a call, and one for a stale value to be reloaded. */
  function Charge(s: State, t: nat): nat
    requires Shape(s) && t < |s.pcs|
  {
    var calls := Times(|s.pcs| + 2, |s.jobs[t]| - s.next[t]);
    match s.pcs[t]
    case Begin => calls
    case Loaded(seen) => if seen == s.cell then calls - 1 else calls
  }

  function Charges(s: State): seq<nat> {
    if Shape(s) then seq(|s.pcs|, t requires 0 <= t < |s.pcs| => Charge(s, t)) else []
  }

  function Measure(s: State): nat { Sum(Identity, Charges(s)) }

  lemma QuietCharges(s: State, a: Action, s': State)
    requires Next(s, a, s') && Shape(s') && !Succeeds(s, a)
    ensures Charges(s') == Charges(s)[a.t := Charge(s', a.t)]
  {
    forall t | 0 <= t < |s.pcs| && t != a.t ensures Charge(s', t) == Charge(s, t) {
      assert s'.cell == s.cell && s'.pcs[t] == s.pcs[t] && s'.next[t] == s.next[t];
    }
  }

  lemma QuietCharge(s: State, a: Action, s': State)
    requires Next(s, a, s') && Shape(s') && !Succeeds(s, a)
    ensures Charge(s', a.t) + 1 <= Charge(s, a.t) + Credit(a)
  {
  }

  lemma QuietStepPays(s: State, a: Action, s': State)
    requires Next(s, a, s') && Shape(s') && !Succeeds(s, a)
    ensures Measure(s') + 1 <= Measure(s) + Credit(a)
  {
    QuietCharges(s, a, s');
    QuietCharge(s, a, s');
    SumUpdate(Identity, Charges(s), a.t, Charge(s', a.t));
  }

  /** A success can make every other thread's value stale; its price covers that. */
  lemma SuccessPays(s: State, a: Action, s': State)
    requires Next(s, a, s') && Shape(s') && Succeeds(s, a)
    ensures Measure(s') + 1 <= Measure(s)
  {
    var t := a.t;
    var before, after := Charges(s), Charges(s');
    assert after[t] + |s.pcs| + 1 == before[t];
    var others := after[t := before[t]];
    SumGrowth(Identity, before, others, 1);
    SumUpdate(Identity, after, t, before[t]);
  }

  lemma StepPays(s: State, a: Action, s': State)
    requires Next(s, a, s') && Shape(s')
    ensures Measure(s') + 1 <= Measure(s) + Credit(a)
  {
    if Succeeds(s, a) {
      SuccessPays(s, a, s');
    } else {
      QuietStepPays(s, a, s');
    }
  }

  lemma RunPays(s0: State, acts: seq<Action>, s: State)
    requires Shape(s0) && Run(Next, s0, acts, s)
    ensures |acts| + Measure(s) <= Measure(s0) + Spurious(acts)
  {
    var measure := (x: State) => Measure(x) as int;
    forall x, a, y | Shape(x) && Next(x, a, y) ensures Shape(y) && measure(y) + 1 <= measure(x) + Credit(a) {
      StepShape(x, a, y);
      StepPays(x, a, y);
    }
    RunLength(Next, Shape, measure, Credit, s0, acts, s);
  }

  lemma {:induction false} TimesIsProduct(k: nat, n: nat)
    ensures Times(k, n) == k * n
  {
    if n > 0 {
      TimesIsProduct(k, n - 1);
    }
  }

  function Prices(k: nat, jobs: seq<seq<int>>): seq<nat> {
    seq(|jobs|, t requires 0 <= t < |jobs| => Times(k, |jobs[t]|))
  }

  lemma {:induction false} TimesPlus(k: nat, m: nat, n: nat)
    ensures Times(k, m + n) == Times(k, m) + Times(k, n)
  {
    if m > 0 {
      TimesPlus(k, m - 1, n);
    }
  }

  lemma {:induction false} TimesSum(k: nat, jobs: seq<seq<int>>)
    ensures Sum(Identity, Prices(k, jobs)) == Times(k, Calls(jobs))
  {
    if jobs != [] {
      TimesSum(k, jobs[1..]);
      assert Prices(k, jobs)[1..] == Prices(k, jobs[1..]);
      TimesPlus(k, |jobs[0]|, Calls(jobs[1..]));
    }
  }

  lemma InitialMeasure(s: State)
    requires Init(s)
    ensures Measure(s) == (|s.jobs| + 2) * Calls(s.jobs)
  {
    assert Charges(s) == Prices(|s.jobs| + 2, s.jobs);
    TimesSum(|s.jobs| + 2, s.jobs);
    TimesIsProduct(|s.jobs| + 2, Calls(s.jobs));
  }

  /**
    Lock freedom: a value goes stale only because some call has succeeded, so apart from
    spurious failures all calls are over within a fixed number of steps a call, and a run
    that can go no further has finished them.
   */
  lemma RetriesAreBounded(s0: State, acts: seq<Action>, s: State)
    requires Init(s0) && Run(Next, s0, acts, s)
    ensures |acts| <= (|s0.jobs| + 2) * Calls(s0.jobs) + Spurious(acts)
    ensures AtRest(Next, s) ==> Finished(s)
  {
    RunPays(s0, acts, s);
    InitialMeasure(s0);
    Reachable(s0, acts, s);
    if AtRest(Next, s) {
      RestMeansFinished(s);
    }
  }

  lemma RestMeansFinished(s: State)
    requires Shape(s) && AtRest(Next, s)
    ensures Finished(s)
  {
    forall t | 0 <= t < |s.pcs| ensures s.next[t] == |s.jobs[t]| {
      if s.next[t] < |s.jobs[t]| {
        var a :=
          if s.pcs[t].Begin? then Load(t)
          else if s.kind.Max? && Arg(s, t) <= s.pcs[t].seen then Quit(t)
          else Cas(t, false);
        assert Next(s, a, Apply(s, a));
      }
    }
  }

  // ---------- what the scheduler may do ----------

  /** Any CAS may fail for no reason, even the only thread's. */
  lemma AnyCasMayFail(s: State, t: nat)
    requires Shape(s) && t < |s.pcs| && s.pcs[t].Loaded? && (s.kind.Max? ==> Arg(s, t) > s.pcs[t].seen)
    ensures Enabled(s, Cas(t, true)) && !Succeeds(s, Cas(t, true))
    ensures Enabled(s, Cas(t, false)) && (Succeeds(s, Cas(t, false)) <==> s.cell == s.pcs[t].seen)
  {
  }

  // ---------- the cell, in place ----------

  /** The shared cell and each thread's local, updated in place by one method an atomic step. */
  class Cell {
    const kind: Kind
    const start: int
    const jobs: seq<seq<int>>
    var cell: int
    var next: seq<nat>
    var pcs: seq<Pc>
    ghost var log: seq<Entry>

    ghost function Snapshot(): State
      reads this
    {
      State(kind, start, jobs, cell, next, pcs, log)
    }

    ghost predicate Valid()
      reads this
    {
      Inv(Snapshot())
    }

    constructor (kind: Kind, start: int, jobs: seq<seq<int>>)
      ensures Init(Snapshot()) && Valid() && this.kind == kind && this.start == start && this.jobs == jobs
    {
      this.kind, this.start, this.jobs := kind, start, jobs;
      cell, log := start, [];
      next, pcs := seq(|jobs|, _ => 0), seq(|jobs|, _ => Begin);
      new;
      InitInv(Snapshot());
    }

    method Load(t: nat)
      requires Valid() && Enabled(Snapshot(), Action.Load(t))
      modifies `pcs
      ensures Valid() && Snapshot() == Apply(old(Snapshot()), Action.Load(t))
      ensures pcs == old(pcs)[t := Loaded(cell)]
    {
      ghost var before := Snapshot();
      pcs := pcs[t := Loaded(cell)];
      StepInv(before, Action.Load(t), Snapshot());
    }

    /** compare_exchange_weak: replaces the value it expects, or reloads what it expects. */
    method Cas(t: nat, fail: bool) returns (ok: bool, was: int)
      requires Valid() && Enabled(Snapshot(), Action.Cas(t, fail))
      modifies `cell, `next, `pcs, `log
      ensures Valid() && Snapshot() == Apply(old(Snapshot()), Action.Cas(t, fail))
      ensures was == old(cell) && (ok ==> pcs[t] == Begin) && (!ok ==> pcs[t] == Loaded(cell) && cell == was)
      ensures ok && kind.Add? ==> was == start + Tally(Args(old(log))) && cell == start + Tally(Args(log))
      ensures ok && kind.Max? ==> was < cell == jobs[t][next[t] - 1]
      ensures ok <==> old(cell) == old(pcs)[t].seen && !fail
      ensures ok ==> pcs == old(pcs)[t := Begin] && next == old(next)[t := old(next)[t] + 1]
      ensures ok ==> log == old(log) + [Entry(t, was, jobs[t][old(next)[t]])]
      ensures ok ==> cell == if kind.Add? then was + jobs[t][old(next)[t]] else jobs[t][old(next)[t]]
      ensures !ok ==> pcs == old(pcs)[t := Loaded(was)] && next == old(next) && log == old(log)
    {
      ghost var before := Snapshot();
      was := cell;
      ok := cell == pcs[t].seen && !fail;
      if ok {
        var arg := jobs[t][next[t]];
        cell, log := if kind.Add? then cell + arg else arg, log + [Entry(t, cell, arg)];
        pcs, next := pcs[t := Begin], next[t := next[t] + 1];
      } else {
        pcs := pcs[t := Loaded(cell)];
      }
      StepInv(before, Action.Cas(t, fail), Snapshot());
      CellIsSum(before);
      CellIsSum(Snapshot());
    }

    /** The atomic maximum leaves: the cell already is at least the candidate, stale as the read may be. */
    method Quit(t: nat)
      requires Valid() && Enabled(Snapshot(), Action.Quit(t))
      modifies `next, `pcs
      ensures Valid() && Snapshot() == Apply(old(Snapshot()), Action.Quit(t))
      ensures jobs[t][next[t] - 1] <= cell
      ensures pcs == old(pcs)[t := Begin] && next == old(next)[t := old(next)[t] + 1]
    {
      ghost var before := Snapshot();
      pcs, next := pcs[t := Begin], next[t := next[t] + 1];
      StepInv(before, Action.Quit(t), Snapshot());
    }
  }
}
