/**
  Double-checked locking: any number of callers of the lazy getter.

  A fresh object has no fields yet; its constructor writes the fields of `init` one at
  a time, and the pointer is published in a step of its own.  Two flags vary the code:
  without `recheck` the second check under the lock is missing; with `early` the pointer
  may be published before the constructor is done, as in the broken classic.  The getter
  as it stands has recheck and not early.
 */
module DoubleChecked {
  import opened Runs
  import opened Sums

  datatype Pointer = Null | At(p: nat)

  datatype Owner = Nobody | Caller(t: nat)

  datatype Pc =
    | Start
    | WantLock
    | Locked
    | Missing                            // under the lock, about to allocate
    | Building(p: nat, published: bool)
    | Found(p: nat)                      // under the lock, the object was there
    | Returned(p: nat)

  datatype State = State(
    early: bool, recheck: bool, init: seq<real>,
    global: Pointer, owner: Owner, heap: seq<seq<real>>, pcs: seq<Pc>)

  datatype Action =
    | Check(t: nat)
    | Lock(t: nat)
    | Recheck(t: nat)
    | Allocate(t: nat)
    | Construct(t: nat)
    | Publish(t: nat)
    | Unlock(t: nat)

  // ---------- the steps ----------

  predicate Built(s: State, p: nat) { p < |s.heap| && s.heap[p] == s.init }

  predicate Enabled(s: State, a: Action) {
    && a.t < |s.pcs|
    && var pc := s.pcs[a.t];
       match a
       case Check(t) => pc.Start?
       case Lock(t) => pc.WantLock? && s.owner.Nobody?
       case Recheck(t) => pc.Locked?
       case Allocate(t) => pc.Missing?
       case Construct(t) => pc.Building? && pc.p < |s.heap| && |s.heap[pc.p]| < |s.init|
       case Publish(t) => pc.Building? && !pc.published && (s.early || Built(s, pc.p))
       case Unlock(t) => pc.Found? || (pc.Building? && pc.published && Built(s, pc.p))
  }

  function Apply(s: State, a: Action): State
    requires Enabled(s, a)
  {
    var pc := s.pcs[a.t];
    match a
    case Check(t) =>
      s.(pcs := s.pcs[t := if s.global.At? then Returned(s.global.p) else WantLock])
    case Lock(t) => s.(owner := Caller(t), pcs := s.pcs[t := Locked])
    case Recheck(t) =>
      s.(pcs := s.pcs[t := if s.recheck && s.global.At? then Found(s.global.p) else Missing])
    case Allocate(t) => s.(heap := s.heap + [[]], pcs := s.pcs[t := Building(|s.heap|, false)])
    case Construct(t) => s.(heap := s.heap[pc.p := s.heap[pc.p] + [s.init[|s.heap[pc.p]|]]])
    case Publish(t) => s.(global := At(pc.p), pcs := s.pcs[t := Building(pc.p, true)])
    case Unlock(t) => s.(owner := Nobody, pcs := s.pcs[t := Returned(pc.p)])
  }

  ghost predicate Next(s: State, a: Action, t: State) {
    Enabled(s, a) && t == Apply(s, a)
  }

  ghost predicate Init(s: State) {
    && s.global == Null && s.owner == Nobody && s.heap == []
    && forall t :: 0 <= t < |s.pcs| ==> s.pcs[t] == Start
  }

  ghost predicate Finished(s: State) {
    forall t :: 0 <= t < |s.pcs| ==> s.pcs[t].Returned?
  }

  // ---------- the invariant ----------

  predicate HasLock(pc: Pc) { pc.Locked? || pc.Missing? || pc.Building? || pc.Found? }

  ghost predicate LockOk(s: State) {
    && (forall t: nat :: s.owner == Caller(t) <==> t < |s.pcs| && HasLock(s.pcs[t]))
    && (s.owner.Caller? ==> s.owner.t < |s.pcs|)
  }

  /** The object behind a pointer a caller has read is there, and is built unless it may be published early. */
  predicate Usable(s: State, p: nat) {
    p < |s.heap| && (!s.early ==> Built(s, p))
  }

  ghost predicate PointersOk(s: State) {
    && (s.global.At? ==> Usable(s, s.global.p))
    && (forall t :: 0 <= t < |s.pcs| && (s.pcs[t].Found? || s.pcs[t].Returned?) ==> Usable(s, s.pcs[t].p))
    && (forall t :: 0 <= t < |s.pcs| && s.pcs[t].Building? ==>
          s.pcs[t].p < |s.heap| && (s.pcs[t].published ==> Usable(s, s.pcs[t].p)))
    && (forall p :: 0 <= p < |s.heap| ==> s.heap[p] <= s.init)
  }

  /** With the second check: no object, one being built by the lock's owner, or one published. */
  ghost predicate OnceOk(s: State) {
    s.recheck ==>
      && |s.heap| <= 1
      && (s.global.At? ==> |s.heap| == 1)
      && (s.global.Null? && s.heap != [] ==>
            s.owner.Caller? && s.owner.t < |s.pcs| && s.pcs[s.owner.t] == Building(0, false))
      && (forall t :: 0 <= t < |s.pcs| && s.pcs[t].Missing? ==> s.heap == [])
      && (forall t :: 0 <= t < |s.pcs| && s.pcs[t].Building? ==>
            |s.heap| == 1 && (s.pcs[t].published <==> s.global.At?))
      && (forall t :: 0 <= t < |s.pcs| && s.pcs[t].Found? ==> s.global.At?)
  }

  ghost predicate Inv(s: State) { LockOk(s) && PointersOk(s) && OnceOk(s) }

  ghost predicate SameProgram(s0: State, s: State) {
    s.early == s0.early && s.recheck == s0.recheck && s.init == s0.init && |s.pcs| == |s0.pcs|
  }

  lemma StepLock(s: State, a: Action, s': State)
    requires Next(s, a, s') && LockOk(s)
    ensures LockOk(s') && SameProgram(s, s')
  {
    if a.Lock? || a.Unlock? || a.Recheck? || a.Allocate? || a.Publish? {
      assert HasLock(s.pcs[a.t]) || a.Lock?;
    }
  }

  lemma StepPointers(s: State, a: Action, s': State)
    requires Next(s, a, s') && LockOk(s) && PointersOk(s)
    ensures PointersOk(s')
  {
    if a.Construct? {
      var p := s.pcs[a.t].p;
      assert s.heap[p] <= s.init;
      assert s'.heap[p] <= s'.init;
    }
  }

  lemma StepOnce(s: State, a: Action, s': State)
    requires Next(s, a, s') && LockOk(s) && OnceOk(s)
    ensures OnceOk(s')
  {
    assert HasLock(s.pcs[a.t]) ==> s.owner == Caller(a.t);
  }

  lemma StepInv(s: State, a: Action, s': State)
    requires Inv(s) && Next(s, a, s')
    ensures Inv(s') && SameProgram(s, s')
  {
    StepLock(s, a, s');
    StepPointers(s, a, s');
    StepOnce(s, a, s');
  }

  lemma Reachable(s0: State, acts: seq<Action>, s: State)
    requires Init(s0) && Run(Next, s0, acts, s)
    ensures Inv(s) && SameProgram(s0, s)
  {
    var inv := (x: State) => Inv(x) && SameProgram(s0, x);
    assert inv(s0);
    forall x, a, y | inv(x) && Next(x, a, y) ensures inv(y) { StepInv(x, a, y); }
    RunInvariant(Next, inv, s0, acts, s);
  }

  // ---------- the getter as it stands ----------

  /** At most one object is ever constructed, and every caller that returns has the one pointer to it. */
  lemma OneObjectForAll(s0: State, acts: seq<Action>, s: State)
    requires Init(s0) && s0.recheck && Run(Next, s0, acts, s)
    ensures |s.heap| <= 1
    ensures forall t :: 0 <= t < |s.pcs| && s.pcs[t].Returned? ==> |s.heap| == 1 && s.pcs[t] == Returned(0)
  {
    Reachable(s0, acts, s);
  }

  /** Nobody returns an object whose constructor has not finished. */
  lemma ReturnedIsBuilt(s0: State, acts: seq<Action>, s: State, t: nat)
    requires Init(s0) && !s0.early && Run(Next, s0, acts, s)
    requires t < |s.pcs| && s.pcs[t].Returned?
    ensures Built(s, s.pcs[t].p) && s.init == s0.init
  {
    Reachable(s0, acts, s);
  }

  // ---------- every schedule ends ----------

  /** Steps a caller can still take, each field one. */
  function Rank(s: State, t: nat): nat
    requires t < |s.pcs|
  {
    match s.pcs[t]
    case Start => 6 + |s.init|
    case WantLock => 5 + |s.init|
    case Locked => 4 + |s.init|
    case Missing => 3 + |s.init|
    case Building(p, published) =>
      (if published then 1 else 2) +
      if p < |s.heap| && |s.heap[p]| <= |s.init| then |s.init| - |s.heap[p]| else 0
    case Found(_) => 1
    case Returned(_) => 0
  }

  function Ranks(s: State): seq<nat> { seq(|s.pcs|, t requires 0 <= t < |s.pcs| => Rank(s, t)) }

  function Measure(s: State): nat { Sum(Identity, Ranks(s)) }

  lemma OneHolder(s: State, t: nat, u: nat)
    requires LockOk(s) && t < |s.pcs| && u < |s.pcs|
    ensures HasLock(s.pcs[t]) && HasLock(s.pcs[u]) ==> t == u
  {
    assert HasLock(s.pcs[t]) ==> s.owner == Caller(t);
  }

  /** Only the owner of the lock builds. */
  lemma OthersKeepRank(s: State, a: Action, s': State)
    requires Inv(s) && Next(s, a, s')
    ensures Ranks(s') == Ranks(s)[a.t := Rank(s', a.t)]
  {
    forall t | 0 <= t < |s.pcs| && t != a.t ensures Rank(s', t) == Rank(s, t) {
      OneHolder(s, t, a.t);
    }
  }

  lemma OwnRankFalls(s: State, a: Action, s': State)
    requires Inv(s) && Next(s, a, s')
    ensures Rank(s', a.t) + 1 <= Rank(s, a.t)
  {
    if s.pcs[a.t].Building? {
      assert s.heap[s.pcs[a.t].p] <= s.init;
    }
  }

  lemma StepPays(s: State, a: Action, s': State)
    requires Inv(s) && Next(s, a, s')
    ensures Measure(s') + 1 <= Measure(s)
  {
    OthersKeepRank(s, a, s');
    OwnRankFalls(s, a, s');
    SumUpdate(Identity, Ranks(s), a.t, Rank(s', a.t));
  }

  lemma RunPays(s0: State, acts: seq<Action>, s: State)
    requires Inv(s0) && Run(Next, s0, acts, s)
    ensures |acts| + Measure(s) <= Measure(s0)
  {
    var measure := (x: State) => Measure(x) as int;
    forall x, a, y | Inv(x) && Next(x, a, y) ensures Inv(y) && measure(y) + 1 <= measure(x) {
      StepInv(x, a, y);
      StepPays(x, a, y);
    }
    RunShrinks(Next, Inv, measure, s0, acts, s);
  }

  /** What a caller that has the lock can do at once. */
  function OwnStep(s: State, t: nat): Action
    requires t < |s.pcs|
  {
    match s.pcs[t]
    case Start => Check(t)
    case WantLock => Lock(t)
    case Locked => Recheck(t)
    case Missing => Allocate(t)
    case Building(p, published) =>
      if !Built(s, p) then Construct(t) else if published then Unlock(t) else Publish(t)
    case _ => Unlock(t)
  }

  lemma OwnStepEnabled(s: State, t: nat)
    requires Inv(s) && t < |s.pcs| && !s.pcs[t].Returned? && (s.pcs[t].WantLock? ==> s.owner == Nobody)
    ensures Enabled(s, OwnStep(s, t))
  {
    if s.pcs[t].Building? {
      assert s.heap[s.pcs[t].p] <= s.init;
    }
  }

  /** Every schedule is over within a fixed number of steps, with every caller returned. */
  lemma EveryCallReturns(s0: State, acts: seq<Action>, s: State)
    requires Init(s0) && Run(Next, s0, acts, s)
    ensures |acts| <= (6 + |s0.init|) * |s0.pcs|
    ensures AtRest(Next, s) ==> Finished(s)
  {
    Reachable(s0, acts, s);
    RunPays(s0, acts, s);
    SumConstant(Identity, Ranks(s0), 6 + |s0.init|);
    if AtRest(Next, s) {
      RestMeansFinished(s);
    }
  }

  lemma RestMeansFinished(s: State)
    requires Inv(s) && AtRest(Next, s)
    ensures Finished(s)
  {
    forall t | 0 <= t < |s.pcs| ensures s.pcs[t].Returned? {
      if !s.pcs[t].Returned? {
        var u := if s.pcs[t].WantLock? && s.owner.Caller? then s.owner.t else t;
        OwnStepEnabled(s, u);
        assert Next(s, OwnStep(s, u), Apply(s, OwnStep(s, u)));
      }
    }
  }

  // ---------- both precautions are needed ----------

  lemma OneStep(s: State, a: Action) returns (acts: seq<Action>, s': State)
    requires Inv(s) && Enabled(s, a)
    ensures acts == [a] && s' == Apply(s, a) && Run(Next, s, acts, s') && Inv(s') && SameProgram(s, s')
  {
    acts, s' := [a], Apply(s, a);
    Single(Next, s, a, s');
    StepInv(s, a, s');
  }

  /** Caller t, once it has the lock or can have it, runs alone until it returns. */
  lemma {:induction false} RunAlone(s: State, t: nat) returns (acts: seq<Action>, s': State)
    requires Inv(s) && t < |s.pcs| && s.pcs[t].Building?
    ensures Run(Next, s, acts, s') && Inv(s') && SameProgram(s, s')
    ensures s'.pcs[t].Returned? && s'.pcs == s.pcs[t := s'.pcs[t]]
    ensures s'.owner == Nobody && |s'.heap| == |s.heap|
    decreases Rank(s, t)
  {
    var a := OwnStep(s, t);
    OwnStepEnabled(s, t);
    assert s.heap[s.pcs[t].p] <= s.init;
    var first, m := OneStep(s, a);
    if a.Unlock? {
      acts, s' := first, m;
    } else {
      var rest;
      rest, s' := RunAlone(m, t);
      acts := first + rest;
      Concat(Next, s, first, m, rest, s');
    }
  }

  /** From wanting the lock to having allocated an object, when nothing is found under the lock. */
  lemma ToBuilding(s: State, t: nat) returns (acts: seq<Action>, s': State)
    requires Inv(s) && t < |s.pcs| && s.pcs[t] == WantLock && s.owner == Nobody
    requires s.recheck ==> s.global == Null
    ensures Run(Next, s, acts, s') && Inv(s') && SameProgram(s, s')
    ensures s'.pcs == s.pcs[t := Building(|s.heap|, false)] && s'.heap == s.heap + [[]]
  {
    var a1, m1 := OneStep(s, Lock(t));
    var a2, m2 := OneStep(m1, Recheck(t));
    var a3, m3 := OneStep(m2, Allocate(t));
    Concat(Next, m1, a2, m2, a3, m3);
    Concat(Next, s, a1, m1, a2 + a3, m3);
    acts, s' := a1 + (a2 + a3), m3;
  }

  /** Two callers that both see no object on the first check. */
  lemma BothMiss(s0: State) returns (acts: seq<Action>, s: State)
    requires Init(s0) && |s0.pcs| >= 2
    ensures Run(Next, s0, acts, s) && Inv(s) && SameProgram(s0, s)
    ensures s == s0.(pcs := s0.pcs[0 := WantLock][1 := WantLock])
  {
    var a1, m1 := OneStep(s0, Check(0));
    var a2, m2 := OneStep(m1, Check(1));
    Concat(Next, s0, a1, m1, a2, m2);
    acts, s := a1 + a2, m2;
  }

  /** Without the second check both of them allocate. */
  lemma TwoObjects(s0: State) returns (acts: seq<Action>, s: State)
    requires Init(s0) && !s0.recheck && |s0.pcs| >= 2
    ensures Run(Next, s0, acts, s) && |s.heap| == 2
  {
    var a1, m1 := BothMiss(s0);
    var a2, m2 := ToBuilding(m1, 0);
    var a3, m3 := RunAlone(m2, 0);
    var a4, m4 := ToBuilding(m3, 1);
    Concat(Next, m2, a3, m3, a4, m4);
    Concat(Next, m1, a2, m2, a3 + a4, m4);
    Concat(Next, s0, a1, m1, a2 + (a3 + a4), m4);
    acts, s := a1 + (a2 + (a3 + a4)), m4;
  }

  /** Published early, an object can be returned to another caller with none of its fields written. */
  lemma HalfBuilt(s0: State) returns (acts: seq<Action>, s: State)
    requires Init(s0) && s0.early && |s0.pcs| >= 2
    ensures Run(Next, s0, acts, s) && |s.pcs| >= 2 && s.pcs[1] == Returned(0) && s.heap == [[]] && s.init == s0.init
  {
    var a1, m1 := OneStep(s0, Check(0));
    var a2, m2 := ToBuilding(m1, 0);
    var a3, m3 := OneStep(m2, Publish(0));
    var a4, m4 := OneStep(m3, Check(1));
    Concat(Next, m2, a3, m3, a4, m4);
    Concat(Next, m1, a2, m2, a3 + a4, m4);
    Concat(Next, s0, a1, m1, a2 + (a3 + a4), m4);
    acts, s := a1 + (a2 + (a3 + a4)), m4;
  }

  /** For two or more callers, one object is all there ever is exactly if the second check is made. */
  lemma OneObjectExactly(s0: State)
    requires Init(s0) && |s0.pcs| >= 2
    ensures s0.recheck <==> forall acts, s :: Run(Next, s0, acts, s) ==> |s.heap| <= 1
  {
    if s0.recheck {
      forall acts, s | Run(Next, s0, acts, s) ensures |s.heap| <= 1 {
        OneObjectForAll(s0, acts, s);
      }
    } else {
      var acts, s := TwoObjects(s0);
      assert Run(Next, s0, acts, s) && |s.heap| == 2;
    }
  }

  ghost predicate AllReturnedBuilt(s: State) {
    forall t :: 0 <= t < |s.pcs| && s.pcs[t].Returned? ==> s.pcs[t].p < |s.heap| && s.heap[s.pcs[t].p] == s.init
  }

  /** For two or more callers, returned objects are always built exactly if construction comes before publication. */
  lemma BuiltExactly(s0: State)
    requires Init(s0) && |s0.pcs| >= 2 && s0.init != []
    ensures !s0.early <==> forall acts, s :: Run(Next, s0, acts, s) ==> AllReturnedBuilt(s)
  {
    if !s0.early {
      forall acts, s | Run(Next, s0, acts, s) ensures AllReturnedBuilt(s) {
        Reachable(s0, acts, s);
      }
    } else {
      var acts, s := HalfBuilt(s0);
      assert s.heap[s.pcs[1].p] == [];
      assert Run(Next, s0, acts, s) && !AllReturnedBuilt(s);
    }
  }

  // ---------- the getter, in place ----------

  /** The published pointer, the lock and the objects, updated in place by one method a step of the getter. */
  class Lazy {
    const early: bool
    const recheck: bool
    const init: seq<real>
    var global: Pointer
    var owner: Owner
    var heap: seq<seq<real>>
    var pcs: seq<Pc>

    ghost function Snapshot(): State
      reads this
    {
      State(early, recheck, init, global, owner, heap, pcs)
    }

    ghost predicate Valid()
      reads this
    {
      Inv(Snapshot())
    }

    constructor (early: bool, recheck: bool, init: seq<real>, callers: nat)
      ensures Init(Snapshot()) && Valid() && |pcs| == callers
      ensures this.early == early && this.recheck == recheck && this.init == init
    {
      this.early, this.recheck, this.init := early, recheck, init;
      global, owner, heap, pcs := Null, Nobody, [], seq(callers, _ => Start);
    }

    /** The first check, without the lock. */
    method Check(t: nat) returns (p: Pointer)
      requires Valid() && Enabled(Snapshot(), Action.Check(t))
      modifies `pcs
      ensures Valid() && Snapshot() == Apply(old(Snapshot()), Action.Check(t)) && p == global
      ensures p.At? && !early ==> Built(Snapshot(), p.p)
      ensures pcs == old(pcs)[t := if p.At? then Returned(p.p) else WantLock]
    {
      ghost var before := Snapshot();
      p := global;
      pcs := pcs[t := if p.At? then Returned(p.p) else WantLock];
      StepInv(before, Action.Check(t), Snapshot());
    }

    method Lock(t: nat)
      requires Valid() && Enabled(Snapshot(), Action.Lock(t))
      modifies `owner, `pcs
      ensures Valid() && Snapshot() == Apply(old(Snapshot()), Action.Lock(t))
      ensures old(owner) == Nobody && owner == Caller(t) && pcs == old(pcs)[t := Locked]
    {
      ghost var before := Snapshot();
      owner, pcs := Caller(t), pcs[t := Locked];
      StepInv(before, Action.Lock(t), Snapshot());
    }

    /** The second check: under the lock, no object means that none has been allocated. */
    method Recheck(t: nat)
      requires Valid() && Enabled(Snapshot(), Action.Recheck(t))
      modifies `pcs
      ensures Valid() && Snapshot() == Apply(old(Snapshot()), Action.Recheck(t))
      ensures recheck && pcs[t].Missing? ==> heap == []
      ensures pcs == old(pcs)[t := if recheck && global.At? then Found(global.p) else Missing]
    {
      ghost var before := Snapshot();
      pcs := pcs[t := if recheck && global.At? then Found(global.p) else Missing];
      StepInv(before, Action.Recheck(t), Snapshot());
    }

    method Allocate(t: nat) returns (p: nat)
      requires Valid() && Enabled(Snapshot(), Action.Allocate(t))
      modifies `heap, `pcs
      ensures Valid() && Snapshot() == Apply(old(Snapshot()), Action.Allocate(t))
      ensures p == |old(heap)| && (recheck ==> p == 0)
      ensures heap == old(heap) + [[]] && pcs == old(pcs)[t := Building(p, false)]
    {
      ghost var before := Snapshot();
      p := |heap|;
      heap, pcs := heap + [[]], pcs[t := Building(p, false)];
      StepInv(before, Action.Allocate(t), Snapshot());
    }

    /** One field of the new object. */
    method Construct(t: nat)
      requires Valid() && Enabled(Snapshot(), Action.Construct(t))
      modifies `heap
      ensures Valid() && Snapshot() == Apply(old(Snapshot()), Action.Construct(t))
      ensures var p := pcs[t].p; heap == old(heap)[p := old(heap)[p] + [init[|old(heap)[p]|]]]
    {
      ghost var before := Snapshot();
      var p := pcs[t].p;
      heap := heap[p := heap[p] + [init[|heap[p]|]]];
      StepInv(before, Action.Construct(t), Snapshot());
    }

    method Publish(t: nat)
      requires Valid() && Enabled(Snapshot(), Action.Publish(t))
      modifies `global, `pcs
      ensures Valid() && Snapshot() == Apply(old(Snapshot()), Action.Publish(t))
      ensures !early ==> Built(Snapshot(), pcs[t].p)
      ensures var p := old(pcs)[t].p; global == At(p) && pcs == old(pcs)[t := Building(p, true)]
    {
      ghost var before := Snapshot();
      global, pcs := At(pcs[t].p), pcs[t := Building(pcs[t].p, true)];
      StepInv(before, Action.Publish(t), Snapshot());
    }

    /** The lock is let go and the pointer returned. */
    method Unlock(t: nat) returns (p: nat)
      requires Valid() && Enabled(Snapshot(), Action.Unlock(t))
      modifies `owner, `pcs
      ensures Valid() && Snapshot() == Apply(old(Snapshot()), Action.Unlock(t))
      ensures pcs[t] == Returned(p) && (!early ==> Built(Snapshot(), p)) && (recheck ==> global == At(p))
      ensures p == old(pcs)[t].p && owner == Nobody && pcs == old(pcs)[t := Returned(p)]
    {
      ghost var before := Snapshot();
      p := pcs[t].p;
      owner, pcs := Nobody, pcs[t := Returned(p)];
      StepInv(before, Action.Unlock(t), Snapshot());
    }
  }
}
