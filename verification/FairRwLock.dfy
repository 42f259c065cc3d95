/**
  A reader/writer lock with a gate for readers in front of a shared mutex.

  A writer announces itself before it asks for the mutex and takes the announcement
  back before it releases it; a reader first spins while any writer is announced.
  The load that opens the gate and the lock_shared that follows are separate steps,
  so a reader that is past the gate may still overtake a writer.  `gated = false` is
  the bare shared mutex.  Readers loop until `stop`; writer w has left[w] rounds.
 */
module FairRwLock {
  import opened Runs
  import opened Sums

  datatype Reader = Idle | AtGate | PastGate | Reading | Gone

  datatype Writer =
    | Away
    | Announced
    | Writing
    | Retracted  // still holds the mutex, no longer announced
    | Over

  datatype State = State(
    gated: bool, pending: int, stop: bool,
    sharers: set<nat>, holders: set<nat>,  // who has locked the mutex, shared and exclusively
    readers: seq<Reader>, writers: seq<Writer>, left: seq<nat>)

  datatype Action =
    | Enter(r: nat)
    | Leave(r: nat)
    | Spin(r: nat)
    | Pass(r: nat)
    | ReadLock(r: nat)
    | ReadUnlock(r: nat)
    | Announce(w: nat)
    | WriteLock(w: nat)
    | Retract(w: nat)
    | WriteUnlock(w: nat)
    | Stop(w: nat)

  // ---------- the steps ----------

  predicate IsReader(s: State, r: nat, pc: Reader) { r < |s.readers| && s.readers[r] == pc }

  predicate IsWriter(s: State, w: nat, pc: Writer) { w < |s.writers| == |s.left| && s.writers[w] == pc }

  predicate Enabled(s: State, a: Action) {
    match a
    case Enter(r) => IsReader(s, r, Idle) && !s.stop
    case Leave(r) => IsReader(s, r, Idle) && s.stop
    case Spin(r) => IsReader(s, r, AtGate) && s.gated && s.pending > 0
    case Pass(r) => IsReader(s, r, AtGate) && !(s.gated && s.pending > 0)
    case ReadLock(r) => IsReader(s, r, PastGate) && s.holders == {}
    case ReadUnlock(r) => IsReader(s, r, Reading)
    case Announce(w) => IsWriter(s, w, Away) && s.left[w] > 0
    case WriteLock(w) => IsWriter(s, w, Announced) && s.holders == {} && s.sharers == {}
    case Retract(w) => IsWriter(s, w, Writing)
    case WriteUnlock(w) => IsWriter(s, w, Retracted) && s.left[w] > 0
    case Stop(w) => IsWriter(s, w, Away) && s.left[w] == 0
  }

  function Apply(s: State, a: Action): State
    requires Enabled(s, a)
  {
    match a
    case Enter(r) => s.(readers := s.readers[r := AtGate])
    case Leave(r) => s.(readers := s.readers[r := Gone])
    case Spin(_) => s
    case Pass(r) => s.(readers := s.readers[r := PastGate])
    case ReadLock(r) => s.(readers := s.readers[r := Reading], sharers := s.sharers + {r})
    case ReadUnlock(r) => s.(readers := s.readers[r := Idle], sharers := s.sharers - {r})
    case Announce(w) => s.(writers := s.writers[w := Announced], pending := s.pending + 1)
    case WriteLock(w) => s.(writers := s.writers[w := Writing], holders := s.holders + {w})
    case Retract(w) => s.(writers := s.writers[w := Retracted], pending := s.pending - 1)
    case WriteUnlock(w) =>
      s.(writers := s.writers[w := Away], holders := s.holders - {w}, left := s.left[w := s.left[w] - 1])
    case Stop(w) => s.(writers := s.writers[w := Over], stop := true)
  }

  ghost predicate Next(s: State, a: Action, t: State) {
    Enabled(s, a) && t == Apply(s, a)
  }

  ghost predicate Init(s: State) {
    && s.pending == 0 && !s.stop && s.sharers == {} && s.holders == {} && |s.writers| == |s.left|
    && (forall r :: 0 <= r < |s.readers| ==> s.readers[r] == Idle)
    && (forall w :: 0 <= w < |s.writers| ==> s.writers[w] == Away)
  }

  ghost predicate Finished(s: State) {
    && (forall r :: 0 <= r < |s.readers| ==> s.readers[r] == Gone)
    && (forall w :: 0 <= w < |s.writers| ==> s.writers[w] == Over)
  }

  // ---------- the invariant ----------

  predicate Holds(pc: Writer) { pc == Writing || pc == Retracted }

  function IsPending(pc: Writer): nat { if pc == Announced || pc == Writing then 1 else 0 }

  ghost predicate MutexOk(s: State) {
    && (forall r: nat :: r in s.sharers <==> IsReader(s, r, Reading))
    && (forall w: nat :: w in s.holders <==> w < |s.writers| && Holds(s.writers[w]))
    && (s.holders != {} ==> s.sharers == {})
    && (forall v, w :: v in s.holders && w in s.holders ==> v == w)
  }

  ghost predicate RoundsOk(s: State) {
    && |s.writers| == |s.left|
    && (forall w :: 0 <= w < |s.writers| && s.writers[w] != Away && s.writers[w] != Over ==> s.left[w] > 0)
    && (forall w :: 0 <= w < |s.writers| && s.writers[w] == Over ==> s.stop)
  }

  ghost predicate Inv(s: State) {
    && RoundsOk(s)
    && MutexOk(s)
    && s.pending == Sum(IsPending, s.writers)
  }

  lemma InitInv(s: State)
    requires Init(s)
    ensures Inv(s)
  {
    SumZero(IsPending, s.writers);
  }

  lemma StepMutex(s: State, a: Action, s': State)
    requires Next(s, a, s') && MutexOk(s)
    ensures MutexOk(s')
  {
  }

  lemma StepPending(s: State, a: Action, s': State)
    requires Next(s, a, s') && s.pending == Sum(IsPending, s.writers)
    ensures s'.pending == Sum(IsPending, s'.writers)
  {
    if a.Announce? || a.WriteLock? || a.Retract? || a.WriteUnlock? || a.Stop? {
      SumUpdate(IsPending, s.writers, a.w, s'.writers[a.w]);
    }
  }

  lemma StepRounds(s: State, a: Action, s': State)
    requires Next(s, a, s') && RoundsOk(s)
    ensures RoundsOk(s') && s'.gated == s.gated
  {
  }

  lemma StepInv(s: State, a: Action, s': State)
    requires Inv(s) && Next(s, a, s')
    ensures Inv(s') && s'.gated == s.gated
  {
    StepRounds(s, a, s');
    StepMutex(s, a, s');
    StepPending(s, a, s');
  }

  lemma Reachable(s0: State, acts: seq<Action>, s: State)
    requires Init(s0) && Run(Next, s0, acts, s)
    ensures Inv(s) && s.gated == s0.gated
  {
    InitInv(s0);
    var inv := (x: State) => Inv(x) && x.gated == s0.gated;
    forall x, a, y | inv(x) && Next(x, a, y) ensures inv(y) { StepInv(x, a, y); }
    RunInvariant(Next, inv, s0, acts, s);
  }

  /** A writer inside its section is alone: no reader is reading and no other writer has the mutex. */
  lemma MutualExclusion(s0: State, acts: seq<Action>, s: State, w: nat)
    requires Init(s0) && Run(Next, s0, acts, s) && w < |s.writers| && Holds(s.writers[w])
    ensures forall r :: 0 <= r < |s.readers| ==> s.readers[r] != Reading
    ensures forall v :: 0 <= v < |s.writers| && v != w ==> !Holds(s.writers[v])
  {
    Reachable(s0, acts, s);
    assert w in s.holders;
    forall r | 0 <= r < |s.readers| ensures s.readers[r] != Reading {
      assert r !in s.sharers;
    }
    forall v | 0 <= v < |s.writers| && v != w ensures !Holds(s.writers[v]) {
      assert v !in s.holders;
    }
  }

  /** The counter is the number of writers between announcing and retracting, always. */
  lemma PendingAlways(s0: State, acts: seq<Action>, s: State)
    requires Init(s0) && Run(Next, s0, acts, s)
    ensures s.pending == Sum(IsPending, s.writers)
  {
    Reachable(s0, acts, s);
  }

  // ---------- bounded overtaking ----------

  function IsPast(pc: Reader): nat { if pc == PastGate then 1 else 0 }

  /** Readers that have seen the gate open and have not locked the mutex yet. */
  function Past(s: State): nat { Sum(IsPast, s.readers) }

  /** How often a reader locks the mutex during `acts`. */
  function Reads(acts: seq<Action>): nat {
    if acts == [] then 0 else (if acts[0].ReadLock? then 1 else 0) + Reads(acts[1..])
  }

  /** Steps of `acts` that are not a turn of a reader's spin loop. */
  function Progress(acts: seq<Action>): nat {
    if acts == [] then 0 else (if acts[0].Spin? then 0 else 1) + Progress(acts[1..])
  }

  lemma WaitingShutsGate(s: State, w: nat)
    requires Inv(s) && IsWriter(s, w, Announced)
    ensures s.pending > 0
  {
    SumMember(IsPending, s.writers, w);
  }

  lemma WaitingStep(s: State, a: Action, s': State, w: nat)
    requires Inv(s) && s.gated && Next(s, a, s') && IsWriter(s, w, Announced) && a != WriteLock(w)
    ensures Inv(s') && s'.gated && IsWriter(s', w, Announced)
    ensures (if a.ReadLock? then 1 else 0) + Past(s') == Past(s)
    ensures (if a.Spin? then 0 else 1) + ToGo(s') == ToGo(s)
  {
    StepInv(s, a, s');
    WaitingShutsGate(s, w);
    if a.Enter? || a.Leave? || a.Spin? || a.Pass? || a.ReadLock? || a.ReadUnlock? {
      ReaderMoves(s, a, s');
    } else {
      WriterMoves(s, a, s');
    }
  }

  /**
    From the moment a writer has announced itself until it gets the mutex, readers lock
    it exactly as often as readers leave the stretch past the gate; so at most as often
    as there were readers on it.
   */
  lemma BoundedOvertaking(s0: State, before: seq<Action>, s: State, acts: seq<Action>, s': State, w: nat)
    requires Init(s0) && s0.gated && Run(Next, s0, before, s) && IsWriter(s, w, Announced)
    requires Run(Next, s, acts, s') && WriteLock(w) !in acts
    ensures IsWriter(s', w, Announced)
    ensures Reads(acts) + Past(s') == Past(s)
    ensures Reads(acts) <= Past(s)
  {
    Reachable(s0, before, s);
    Waiting(s, acts, s', w);
  }

  lemma {:induction false} Waiting(s: State, acts: seq<Action>, s': State, w: nat)
    requires Inv(s) && s.gated && IsWriter(s, w, Announced)
    requires Run(Next, s, acts, s') && WriteLock(w) !in acts
    ensures IsWriter(s', w, Announced) && Inv(s')
    ensures Reads(acts) + Past(s') == Past(s)
    ensures Progress(acts) + ToGo(s') == ToGo(s)
    decreases |acts|
  {
    if acts != [] {
      var m :| Next(s, acts[0], m) && Run(Next, m, acts[1..], s');
      WaitingStep(s, acts[0], m, w);
      Waiting(m, acts[1..], s', w);
    }
  }

  lemma {:induction false} ReadsConcat(left: seq<Action>, right: seq<Action>)
    ensures Reads(left + right) == Reads(left) + Reads(right)
  {
    if left == [] {
      assert left + right == right;
    } else {
      ReadsConcat(left[1..], right);
      assert (left + right)[1..] == left[1..] + right;
    }
  }

  /** Whoever holds the mutex exclusively lets go of it; nobody else moves. */
  lemma HolderLetsGo(s: State, v: nat) returns (acts: seq<Action>, t: State)
    requires Inv(s) && v in s.holders
    ensures Run(Next, s, acts, t) && Inv(t) && t.holders == {} && t.readers == s.readers
    ensures forall w :: IsWriter(s, w, Announced) ==> IsWriter(t, w, Announced)
    ensures Reads(acts) == 0 && forall a :: a in acts ==> !a.WriteLock?
    decreases s.writers[v] == Writing
  {
    assert v < |s.writers| && Holds(s.writers[v]);
    var a := if s.writers[v] == Writing then Retract(v) else WriteUnlock(v);
    var m := Apply(s, a);
    StepInv(s, a, m);
    if a == WriteUnlock(v) {
      acts, t := [a], m;
      Single(Next, s, a, m);
    } else {
      var rest;
      rest, t := HolderLetsGo(m, v);
      acts := [a] + rest;
      Prepend(Next, s, a, m, rest, t);
      ReadsConcat([a], rest);
    }
  }

  lemma {:induction false} AllPastLock(s: State) returns (acts: seq<Action>, t: State)
    requires Inv(s) && s.holders == {}
    ensures Run(Next, s, acts, t) && Reads(acts) == Past(s) && forall a :: a in acts ==> !a.WriteLock?
    decreases Past(s)
  {
    SumZero(IsPast, s.readers);
    if Past(s) == 0 {
      acts, t := [], s;
    } else {
      var r :| 0 <= r < |s.readers| && IsPast(s.readers[r]) != 0;
      var m := Apply(s, ReadLock(r));
      StepInv(s, ReadLock(r), m);
      SumUpdate(IsPast, s.readers, r, Reading);
      var rest;
      rest, t := AllPastLock(m);
      acts := [ReadLock(r)] + rest;
      Prepend(Next, s, ReadLock(r), m, rest, t);
      ReadsConcat([ReadLock(r)], rest);
    }
  }

  /** The bound is attained: from wherever a writer waits, every reader past the gate can still go first. */
  lemma OvertakingIsAttained(s0: State, before: seq<Action>, s: State, w: nat)
    returns (acts: seq<Action>, t: State)
    requires Init(s0) && Run(Next, s0, before, s) && IsWriter(s, w, Announced)
    ensures Run(Next, s, acts, t) && WriteLock(w) !in acts && Reads(acts) == Past(s)
  {
    Reachable(s0, before, s);
    if v :| v in s.holders {
      var first, m := HolderLetsGo(s, v);
      var rest;
      rest, t := AllPastLock(m);
      acts := first + rest;
      Concat(Next, s, first, m, rest, t);
      ReadsConcat(first, rest);
    } else {
      assert s.holders == {};
      acts, t := AllPastLock(s);
    }
  }

  // ---------- a bounded wait ----------

  /** Steps a reader can take before the shut gate holds it. */
  function ReaderToGo(pc: Reader): nat {
    match pc
    case PastGate => 3
    case Reading => 2
    case Idle => 1
    case AtGate => 0
    case Gone => 0
  }

  /** Steps a writer has left in all its rounds. */
  function WriterToGo(pc: Writer, left: nat): nat {
    match pc
    case Away => 4 * left + 1
    case Announced => 4 * left
    case Writing => if left == 0 then 0 else 4 * left - 1
    case Retracted => if left == 0 then 0 else 4 * left - 2
    case Over => 0
  }

  function Rounds(s: State): seq<nat> {
    if |s.writers| == |s.left|
    then seq(|s.writers|, w requires 0 <= w < |s.writers| => WriterToGo(s.writers[w], s.left[w]))
    else []
  }

  /** The steps other than spinning that can come before an announced writer gets the mutex. */
  function ToGo(s: State): nat { Sum(ReaderToGo, s.readers) + Sum(Identity, Rounds(s)) }

  lemma ReaderMoves(s: State, a: Action, s': State)
    requires Next(s, a, s') && s.gated && s.pending > 0
    requires a.Enter? || a.Leave? || a.Spin? || a.Pass? || a.ReadLock? || a.ReadUnlock?
    ensures (if a.ReadLock? then 1 else 0) + Past(s') == Past(s)
    ensures (if a.Spin? then 0 else 1) + ToGo(s') == ToGo(s)
  {
    SumUpdate(IsPast, s.readers, a.r, s'.readers[a.r]);
    SumUpdate(ReaderToGo, s.readers, a.r, s'.readers[a.r]);
    if a.Spin? {
      assert s'.readers == s.readers;
    }
    assert Rounds(s') == Rounds(s);
  }

  lemma WriterMoves(s: State, a: Action, s': State)
    requires Inv(s) && Next(s, a, s')
    requires a.Announce? || a.WriteLock? || a.Retract? || a.WriteUnlock? || a.Stop?
    ensures Past(s') == Past(s) && 1 + ToGo(s') == ToGo(s)
  {
    assert Rounds(s') == Rounds(s)[a.w := WriterToGo(s'.writers[a.w], s'.left[a.w])];
    SumUpdate(Identity, Rounds(s), a.w, WriterToGo(s'.writers[a.w], s'.left[a.w]));
  }

  /** The way is clear, or whoever is in it can go on. */
  lemma HolderCanGo(s: State, w: nat) returns (a: Action)
    requires Inv(s) && IsWriter(s, w, Announced)
    ensures Enabled(s, a) && !a.Spin?
    ensures a == WriteLock(w) || a.ReadUnlock? || a.Retract? || a.WriteUnlock?
  {
    if r :| r in s.sharers {
      a := ReadUnlock(r);
    } else if v :| v in s.holders {
      assert v < |s.writers| && Holds(s.writers[v]);
      a := if s.writers[v] == Writing then Retract(v) else WriteUnlock(v);
    } else {
      assert s.sharers == {} && s.holders == {};
      a := WriteLock(w);
    }
  }

  /**
    No starvation: while a writer waits, at most a fixed number of steps other than
    spinning can pass, and there always is such a step, which lets a holder move on or
    gives the writer the mutex.
   */
  lemma WriterIsNotStarved(s0: State, before: seq<Action>, s: State, acts: seq<Action>, s': State, w: nat)
    returns (a: Action)
    requires Init(s0) && s0.gated && Run(Next, s0, before, s) && IsWriter(s, w, Announced)
    requires Run(Next, s, acts, s') && WriteLock(w) !in acts
    ensures Progress(acts) + 4 <= ToGo(s)
    ensures Enabled(s', a) && (a == WriteLock(w) || a.ReadUnlock? || a.Retract? || a.WriteUnlock?)
  {
    Reachable(s0, before, s);
    Waiting(s, acts, s', w);
    ToGoOfWaiting(s', w);
    a := HolderCanGo(s', w);
  }

  lemma ToGoOfWaiting(s: State, w: nat)
    requires Inv(s) && IsWriter(s, w, Announced)
    ensures ToGo(s) >= 4
  {
    SumMember(Identity, Rounds(s), w);
  }

  // ---------- nobody is stuck ----------

  /** A step a writer, or a reader once all writers are over, can take. */
  lemma NeverStuck(s0: State, acts: seq<Action>, s: State) returns (a: Action)
    requires Init(s0) && Run(Next, s0, acts, s) && !Finished(s)
    ensures Enabled(s, a) && Apply(s, a) != s
  {
    Reachable(s0, acts, s);
    if w :| 0 <= w < |s.writers| && s.writers[w] != Over {
      match s.writers[w] {
        case Away => a := if s.left[w] > 0 then Announce(w) else Stop(w);
        case Announced => a := HolderCanGo(s, w);
        case Writing => a := Retract(w);
        case Retracted => a := WriteUnlock(w);
      }
    } else {
      SumZero(IsPending, s.writers);
      assert s.holders == {} by {
        if v :| v in s.holders { assert Holds(s.writers[v]); }
      }
      var r :| 0 <= r < |s.readers| && s.readers[r] != Gone;
      match s.readers[r] {
        case Idle => a := if s.stop then Leave(r) else Enter(r);
        case AtGate => a := Pass(r);
        case PastGate => a := ReadLock(r);
        case Reading => a := ReadUnlock(r);
      }
    }
    StepChanges(s, a);
  }

  lemma StepChanges(s: State, a: Action)
    requires Enabled(s, a)
    ensures Apply(s, a) == s <==> a.Spin?
  {
    if a.Enter? || a.Leave? || a.Pass? || a.ReadLock? || a.ReadUnlock? {
      assert Apply(s, a).readers[a.r] != s.readers[a.r];
    } else if !a.Spin? {
      assert Apply(s, a).writers[a.w] != s.writers[a.w];
    }
  }

  // ---------- the bare mutex ----------

  /** One announced writer, and two readers of which only reader r reads. */
  function Relay(r: nat): State
    requires r < 2
  {
    State(false, 1, false, {r}, {}, if r == 0 then [Reading, Idle] else [Idle, Reading], [Announced], [1])
  }

  /** As it was, and the writer cannot get the mutex meanwhile. */
  ghost predicate Shut(s: State, a: Action, t: State) {
    Next(s, a, t) && !Enabled(s, WriteLock(0)) && !Enabled(t, WriteLock(0))
  }

  /** The other reader comes up to the mutex. */
  lemma ComesUp(r: nat, q: nat) returns (acts: seq<Action>, m: State)
    requires r < 2 && q == 1 - r
    ensures Run(Shut, Relay(r), acts, m) && Reads(acts) == 0
    ensures m == Relay(r).(readers := Relay(r).readers[q := PastGate])
  {
    var a := Relay(r);
    var b := a.(readers := a.readers[q := AtGate]);
    m := b.(readers := b.readers[q := PastGate]);
    assert Shut(a, Enter(q), b) && Shut(b, Pass(q), m);
    Single(Shut, b, Pass(q), m);
    Prepend(Shut, a, Enter(q), b, [Pass(q)], m);
    acts := [Enter(q)] + [Pass(q)];
    ReadsConcat([Enter(q)], [Pass(q)]);
    assert m.readers == a.readers[q := PastGate];
  }

  /** It locks the mutex before the first reader unlocks it. */
  lemma TakesOver(r: nat, q: nat) returns (acts: seq<Action>)
    requires r < 2 && q == 1 - r
    ensures Run(Shut, Relay(r).(readers := Relay(r).readers[q := PastGate]), acts, Relay(q)) && Reads(acts) == 1
  {
    var a := Relay(r).(readers := Relay(r).readers[q := PastGate]);
    var b := a.(readers := a.readers[q := Reading], sharers := a.sharers + {q});
    var c := Relay(q);
    assert b.sharers - {r} == {q} && b.readers[r := Idle] == c.readers;
    assert Shut(a, ReadLock(q), b) && Shut(b, ReadUnlock(r), c);
    Single(Shut, b, ReadUnlock(r), c);
    Prepend(Shut, a, ReadLock(q), b, [ReadUnlock(r)], c);
    acts := [ReadLock(q)] + [ReadUnlock(r)];
    ReadsConcat([ReadLock(q)], [ReadUnlock(r)]);
  }

  lemma HandOver(r: nat, q: nat) returns (acts: seq<Action>)
    requires r < 2 && q == 1 - r
    ensures Run(Shut, Relay(r), acts, Relay(q)) && Reads(acts) == 1
  {
    var up, m := ComesUp(r, q);
    var over := TakesOver(r, q);
    acts := up + over;
    Concat(Shut, Relay(r), up, m, over, Relay(q));
    ReadsConcat(up, over);
  }

  /**
    Without the gate there is no bound: two readers can lock the mutex n times, for
    every n, while a writer waits and at no moment finds it free.
   */
  lemma {:induction false} UngatedWriterStarves(n: nat) returns (acts: seq<Action>, r: nat)
    ensures r < 2 && Run(Shut, Relay(0), acts, Relay(r)) && Reads(acts) == n
  {
    if n == 0 {
      acts, r := [], 0;
    } else {
      var before, last;
      before, r := UngatedWriterStarves(n - 1);
      last := HandOver(r, 1 - r);
      acts := before + last;
      Concat(Shut, Relay(0), before, Relay(r), last, Relay(1 - r));
      ReadsConcat(before, last);
      r := 1 - r;
    }
  }

  function Ungated(): State { State(false, 0, false, {}, {}, [Idle, Idle], [Away], [1]) }

  /** The relay starts from where the program starts. */
  lemma RelayIsReachable() returns (acts: seq<Action>)
    ensures Init(Ungated()) && Run(Next, Ungated(), acts, Relay(0))
  {
    var a := Ungated();
    var b := a.(readers := [AtGate, Idle]);
    var c := a.(readers := [PastGate, Idle]);
    var d := a.(readers := [Reading, Idle], sharers := {0});
    assert Next(a, Enter(0), b) && Next(b, Pass(0), c) && Next(c, ReadLock(0), d) && Next(d, Announce(0), Relay(0));
    Single(Next, d, Announce(0), Relay(0));
    Prepend(Next, c, ReadLock(0), d, [Announce(0)], Relay(0));
    Prepend(Next, b, Pass(0), c, [ReadLock(0)] + [Announce(0)], Relay(0));
    Prepend(Next, a, Enter(0), b, [Pass(0)] + ([ReadLock(0)] + [Announce(0)]), Relay(0));
    acts := [Enter(0)] + ([Pass(0)] + ([ReadLock(0)] + [Announce(0)]));
  }

  // ---------- the gate is what bounds overtaking ----------

  /** Writer w announced after `before`, and then waiting all through `acts`, while readers lock n times. */
  ghost predicate Overtaken(s0: State, w: nat, before: seq<Action>, s: State, acts: seq<Action>, s': State, n: nat) {
    && Run(Next, s0, before, s) && IsWriter(s, w, Announced)
    && Run(Next, s, acts, s') && WriteLock(w) !in acts && Reads(acts) == n
  }

  ghost predicate CanBeOvertaken(s0: State, n: nat) {
    exists w, before, s, acts, s' :: Overtaken(s0, w, before, s, acts, s', n)
  }

  ghost predicate Bounds(s0: State, bound: nat) {
    forall n: nat :: CanBeOvertaken(s0, n) ==> n <= bound
  }

  /** One number bounds how often readers overtake any announced writer in any run. */
  ghost predicate OvertakingIsBounded(s0: State) {
    exists bound: nat :: Bounds(s0, bound)
  }

  lemma PastAtMostAll(readers: seq<Reader>)
    ensures Sum(IsPast, readers) <= |readers|
  {
    SumFull(IsPast, readers);
  }

  lemma {:induction false} ReadersKept(s0: State, acts: seq<Action>, s: State)
    requires Run(Next, s0, acts, s)
    ensures |s.readers| == |s0.readers|
    decreases |acts|
  {
    if acts != [] {
      var m :| Next(s0, acts[0], m) && Run(Next, m, acts[1..], s);
      ReadersKept(m, acts[1..], s);
    }
  }

  lemma GatedIsBounded(s0: State)
    requires Init(s0) && s0.gated
    ensures OvertakingIsBounded(s0)
  {
    forall n: nat | CanBeOvertaken(s0, n) ensures n <= |s0.readers| {
      var w, before, s, acts, s' :| Overtaken(s0, w, before, s, acts, s', n);
      BoundedOvertaking(s0, before, s, acts, s', w);
      ReadersKept(s0, before, s);
      PastAtMostAll(s.readers);
    }
    assert Bounds(s0, |s0.readers|);
  }

  /** Reader r goes once through the bare mutex, and everything is as it was. */
  lemma PassThrough(s: State, r: nat) returns (acts: seq<Action>)
    requires !s.gated && !s.stop && IsReader(s, r, Idle) && s.holders == {} && r !in s.sharers
    ensures Run(Next, s, acts, s) && Reads(acts) == 1
    ensures forall a :: a in acts ==> !a.WriteLock?
  {
    var s1 := Apply(s, Enter(r));
    var s2 := Apply(s1, Pass(r));
    var s3 := Apply(s2, ReadLock(r));
    var s4 := Apply(s3, ReadUnlock(r));
    Single(Next, s3, ReadUnlock(r), s4);
    Prepend(Next, s2, ReadLock(r), s3, [ReadUnlock(r)], s4);
    Prepend(Next, s1, Pass(r), s2, [ReadLock(r)] + [ReadUnlock(r)], s4);
    Prepend(Next, s, Enter(r), s1, [Pass(r)] + ([ReadLock(r)] + [ReadUnlock(r)]), s4);
    acts := [Enter(r)] + ([Pass(r)] + ([ReadLock(r)] + [ReadUnlock(r)]));
    assert s4.readers == s.readers && s4.sharers == s.sharers;
    ReadsConcat([Enter(r)], [Pass(r)] + ([ReadLock(r)] + [ReadUnlock(r)]));
    ReadsConcat([Pass(r)], [ReadLock(r)] + [ReadUnlock(r)]);
    ReadsConcat([ReadLock(r)], [ReadUnlock(r)]);
  }

  lemma {:induction false} PassThroughs(s: State, r: nat, n: nat) returns (acts: seq<Action>)
    requires !s.gated && !s.stop && IsReader(s, r, Idle) && s.holders == {} && r !in s.sharers
    ensures Run(Next, s, acts, s) && Reads(acts) == n
    ensures forall a :: a in acts ==> !a.WriteLock?
  {
    if n == 0 {
      acts := [];
    } else {
      var first := PassThrough(s, r);
      var rest := PassThroughs(s, r, n - 1);
      acts := first + rest;
      Concat(Next, s, first, s, rest, s);
      ReadsConcat(first, rest);
    }
  }

  /** On the bare mutex a single reader overtakes an announced writer as often as it likes. */
  lemma UngatedIsOvertaken(s0: State, w: nat, n: nat)
    requires Init(s0) && !s0.gated && |s0.readers| > 0 && w < |s0.writers| && s0.left[w] > 0
    ensures CanBeOvertaken(s0, n)
  {
    var s := Apply(s0, Announce(w));
    Single(Next, s0, Announce(w), s);
    var acts := PassThroughs(s, 0, n);
    assert Overtaken(s0, w, [Announce(w)], s, acts, s, n);
  }

  /**
    For every program with a reader and a writer that has a round to do: how often readers
    overtake an announced writer is bounded over all runs exactly if the gate is there.
   */
  lemma BoundedExactlyWhenGated(s0: State, w: nat)
    requires Init(s0) && |s0.readers| > 0 && w < |s0.writers| && s0.left[w] > 0
    ensures s0.gated <==> OvertakingIsBounded(s0)
  {
    if s0.gated {
      GatedIsBounded(s0);
    } else if bound: nat :| Bounds(s0, bound) {
      UngatedIsOvertaken(s0, w, bound + 1);
      assert false;
    }
  }

  // ---------- the lock, in place ----------

  /** The counter, the mutex and each thread's position, updated in place by one method an atomic step. */
  class Lock {
    const gated: bool
    var pending: int
    var stop: bool
    var sharers: set<nat>
    var holders: set<nat>
    var readers: seq<Reader>
    var writers: seq<Writer>
    var left: seq<nat>

    ghost function Snapshot(): State
      reads this
    {
      State(gated, pending, stop, sharers, holders, readers, writers, left)
    }

    ghost predicate Valid()
      reads this
    {
      Inv(Snapshot())
    }

    constructor (gated: bool, readers: nat, left: seq<nat>)
      ensures Init(Snapshot()) && Valid()
      ensures this.gated == gated && |this.readers| == readers && this.left == left
    {
      this.gated, pending, stop, sharers, holders := gated, 0, false, {}, {};
      this.readers, this.writers, this.left := seq(readers, _ => Idle), seq(|left|, _ => Away), left;
      new;
      InitInv(Snapshot());
    }

    /** The head of a reader's loop. */
    method Loop(r: nat) returns (more: bool)
      requires Valid() && IsReader(Snapshot(), r, Idle)
      modifies `readers
      ensures Valid() && Snapshot() == Apply(old(Snapshot()), if old(stop) then Leave(r) else Enter(r))
      ensures more == !stop
      ensures readers == old(readers)[r := if stop then Gone else AtGate]
    {
      ghost var before := Snapshot();
      more := !stop;
      readers := readers[r := if stop then Gone else AtGate];
      StepInv(before, if stop then Leave(r) else Enter(r), Snapshot());
    }

    /** One load of the counter: the gate is shut exactly while some writer is announced or writing. */
    method Gate(r: nat) returns (open: bool)
      requires Valid() && IsReader(Snapshot(), r, AtGate)
      modifies `readers
      ensures Valid() && Snapshot() == Apply(old(Snapshot()), if gated && old(pending) > 0 then Spin(r) else Pass(r))
      ensures open <==> readers[r] == PastGate
      ensures gated ==> (open <==> forall w :: 0 <= w < |writers| ==> writers[w] != Announced && writers[w] != Writing)
      ensures open <==> !gated || pending <= 0
      ensures readers == if open then old(readers)[r := PastGate] else old(readers)
    {
      ghost var before := Snapshot();
      open := !gated || pending <= 0;
      if open {
        readers := readers[r := PastGate];
      }
      SumZero(IsPending, writers);
      StepInv(before, if gated && pending > 0 then Spin(r) else Pass(r), Snapshot());
    }

    method ReadLock(r: nat)
      requires Valid() && Enabled(Snapshot(), Action.ReadLock(r))
      modifies `readers, `sharers
      ensures Valid() && Snapshot() == Apply(old(Snapshot()), Action.ReadLock(r))
      ensures readers == old(readers)[r := Reading] && sharers == old(sharers) + {r}
    {
      ghost var before := Snapshot();
      readers, sharers := readers[r := Reading], sharers + {r};
      StepInv(before, Action.ReadLock(r), Snapshot());
    }

    method ReadUnlock(r: nat)
      requires Valid() && Enabled(Snapshot(), Action.ReadUnlock(r))
      modifies `readers, `sharers
      ensures Valid() && Snapshot() == Apply(old(Snapshot()), Action.ReadUnlock(r))
      ensures readers == old(readers)[r := Idle] && sharers == old(sharers) - {r}
    {
      ghost var before := Snapshot();
      readers, sharers := readers[r := Idle], sharers - {r};
      StepInv(before, Action.ReadUnlock(r), Snapshot());
    }

    method Announce(w: nat)
      requires Valid() && Enabled(Snapshot(), Action.Announce(w))
      modifies `pending, `writers
      ensures Valid() && Snapshot() == Apply(old(Snapshot()), Action.Announce(w)) && pending > 0
      ensures pending == old(pending) + 1 && writers == old(writers)[w := Announced]
    {
      ghost var before := Snapshot();
      pending, writers := pending + 1, writers[w := Announced];
      StepInv(before, Action.Announce(w), Snapshot());
    }

    method WriteLock(w: nat)
      requires Valid() && Enabled(Snapshot(), Action.WriteLock(w))
      modifies `holders, `writers
      ensures Valid() && Snapshot() == Apply(old(Snapshot()), Action.WriteLock(w))
      ensures holders == {w} && sharers == {}
      ensures writers == old(writers)[w := Writing] && old(holders) == {}
    {
      ghost var before := Snapshot();
      writers, holders := writers[w := Writing], holders + {w};
      StepInv(before, Action.WriteLock(w), Snapshot());
    }

    /** The first half of unlock: the gate may open while the mutex is still held. */
    method Retract(w: nat)
      requires Valid() && Enabled(Snapshot(), Action.Retract(w))
      modifies `pending, `writers
      ensures Valid() && Snapshot() == Apply(old(Snapshot()), Action.Retract(w))
      ensures pending >= 0 && holders == {w}
      ensures pending == old(pending) - 1 && writers == old(writers)[w := Retracted]
    {
      ghost var before := Snapshot();
      pending, writers := pending - 1, writers[w := Retracted];
      StepInv(before, Action.Retract(w), Snapshot());
      assert w in holders;
    }

    method WriteUnlock(w: nat)
      requires Valid() && Enabled(Snapshot(), Action.WriteUnlock(w))
      modifies `holders, `writers, `left
      ensures Valid() && Snapshot() == Apply(old(Snapshot()), Action.WriteUnlock(w))
      ensures holders == {}
      ensures old(holders) == {w} && writers == old(writers)[w := Away]
      ensures left == old(left)[w := old(left)[w] - 1]
    {
      ghost var before := Snapshot();
      assert w in holders;
      writers, holders, left := writers[w := Away], holders - {w}, left[w := left[w] - 1];
      StepInv(before, Action.WriteUnlock(w), Snapshot());
    }

    /** After its last round a writer tells the readers to stop. */
    method Stop(w: nat)
      requires Valid() && Enabled(Snapshot(), Action.Stop(w))
      modifies `stop, `writers
      ensures Valid() && Snapshot() == Apply(old(Snapshot()), Action.Stop(w)) && stop
      ensures writers == old(writers)[w := Over]
    {
      ghost var before := Snapshot();
      stop, writers := true, writers[w := Over];
      StepInv(before, Action.Stop(w), Snapshot());
    }
  }
}
