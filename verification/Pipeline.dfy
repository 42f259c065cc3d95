/**
  A pipeline of any number of stages joined by closing bounded queues.

  Thread 0 is the source, thread i applies stage function `stages[i - 1]`, and the
  last thread is the sink; queue i leads from thread i to thread i + 1.  The source
  closes the first queue after its last item, and every stage closes its output
  queue when its input is closed and drained.  Notifications are sent under the
  lock, the two of `close` after releasing it.

  Each queue has one thread on either side, so a notification on a queue's
  condition variable concerns the neighbour alone.
 */
module Pipeline {
  import opened Runs
  import opened Sums

  datatype Pc =
    | Popping    // about to fetch: from the source list or the input queue
    | PopAsleep
    | PopWoken
    | Sending    // holds a value for its output queue
    | SendAsleep
    | SendWoken
    | Closing
    | WakeEmpty  // closed, owes the consumer's condition variable a notify_all
    | WakeFull
    | Done

  datatype State<!T> = State(
    source: seq<T>, stages: seq<T -> T>, caps: seq<nat>,
    next: nat, pcs: seq<Pc>, hand: seq<seq<T>>,
    qs: seq<seq<T>>, closed: seq<bool>, output: seq<T>,
    sent: seq<seq<T>>, got: seq<seq<T>>, dropped: nat)

  datatype Action =
    | Fetch
    | Pop(i: nat)
    | Send(i: nat)
    | Close(i: nat)
    | NotifyEmpty(i: nat)
    | NotifyFull(i: nat)
    | Spurious(i: nat)

  // ---------- the steps ----------

  predicate Sends(pc: Pc) { pc == Sending || pc == SendAsleep || pc == SendWoken }

  predicate Pops(pc: Pc) { pc == Popping || pc == PopAsleep || pc == PopWoken }

  predicate Shape<T>(s: State<T>) {
    var k := |s.caps|;
    && k > 0 && |s.stages| == k - 1 && |s.pcs| == |s.hand| == k + 1
    && |s.qs| == |s.closed| == |s.sent| == |s.got| == k
    && s.next <= |s.source|
    && forall i :: 0 <= i <= k ==> (|s.hand[i]| == if Sends(s.pcs[i]) then 1 else 0)
  }

  predicate Enabled<T>(s: State<T>, a: Action) {
    && Shape(s)
    && match a
       case Fetch => s.pcs[0] == Popping
       case Pop(i) => 0 < i < |s.pcs| && (s.pcs[i] == Popping || s.pcs[i] == PopWoken)
       case Send(i) => i < |s.qs| && (s.pcs[i] == Sending || s.pcs[i] == SendWoken)
       case Close(i) => i < |s.qs| && s.pcs[i] == Closing
       case NotifyEmpty(i) => i < |s.qs| && s.pcs[i] == WakeEmpty
       case NotifyFull(i) => i < |s.qs| && s.pcs[i] == WakeFull
       case Spurious(i) => i < |s.pcs| && (s.pcs[i] == PopAsleep || s.pcs[i] == SendAsleep)
  }

  /** A notification on the condition variable where thread i waits for `asleep` to end. */
  function Notify(pcs: seq<Pc>, i: nat, asleep: Pc, woken: Pc): seq<Pc> {
    if i < |pcs| && pcs[i] == asleep then pcs[i := woken] else pcs
  }

  function ApplyFetch<T>(s: State<T>): State<T>
    requires Enabled(s, Fetch)
  {
    if s.next == |s.source| then
      s.(pcs := s.pcs[0 := Closing])
    else
      s.(next := s.next + 1, hand := s.hand[0 := [s.source[s.next]]], pcs := s.pcs[0 := Sending])
  }

  /** pop, and the stage function applied to what it returned; the sink outputs it. */
  function ApplyPop<T>(s: State<T>, i: nat): State<T>
    requires Enabled(s, Pop(i))
  {
    var q := s.qs[i - 1];
    if q == [] && !s.closed[i - 1] then
      s.(pcs := s.pcs[i := PopAsleep])
    else if q == [] then
      s.(pcs := s.pcs[i := if i == |s.qs| then Done else Closing])
    else
      var s1 := s.(qs := s.qs[i - 1 := q[1..]], got := s.got[i - 1 := s.got[i - 1] + [q[0]]]);
      if i == |s.qs| then
        s1.(output := s.output + [q[0]],
            pcs := Notify(s.pcs[i := Popping], i - 1, SendAsleep, SendWoken))
      else
        s1.(hand := s.hand[i := [s.stages[i - 1](q[0])]],
            pcs := Notify(s.pcs[i := Sending], i - 1, SendAsleep, SendWoken))
  }

  /** push of the value in hand. */
  function ApplySend<T>(s: State<T>, i: nat): State<T>
    requires Enabled(s, Send(i))
  {
    if |s.qs[i]| >= s.caps[i] && !s.closed[i] then
      s.(pcs := s.pcs[i := SendAsleep])
    else if s.closed[i] then
      s.(pcs := s.pcs[i := Popping], hand := s.hand[i := []], dropped := s.dropped + 1)
    else
      s.(qs := s.qs[i := s.qs[i] + s.hand[i]], sent := s.sent[i := s.sent[i] + s.hand[i]],
         hand := s.hand[i := []],
         pcs := Notify(s.pcs[i := Popping], i + 1, PopAsleep, PopWoken))
  }

  function Apply<T>(s: State<T>, a: Action): State<T>
    requires Enabled(s, a)
  {
    match a
    case Fetch => ApplyFetch(s)
    case Pop(i) => ApplyPop(s, i)
    case Send(i) => ApplySend(s, i)
    case Close(i) => s.(closed := s.closed[i := true], pcs := s.pcs[i := WakeEmpty])
    case NotifyEmpty(i) => s.(pcs := Notify(s.pcs[i := WakeFull], i + 1, PopAsleep, PopWoken))
    case NotifyFull(i) => s.(pcs := s.pcs[i := Done])
    case Spurious(i) => s.(pcs := s.pcs[i := if s.pcs[i] == PopAsleep then PopWoken else SendWoken])
  }

  ghost predicate Next<T>(s: State<T>, a: Action, t: State<T>) {
    Enabled(s, a) && t == Apply(s, a)
  }

  ghost predicate Proper<T>(s: State<T>, a: Action, t: State<T>) {
    Next(s, a, t) && !a.Spurious?
  }

  ghost predicate Init<T>(s: State<T>) {
    && Shape(s) && s.next == 0 && s.output == [] && s.dropped == 0
    && (forall i :: 0 <= i < |s.pcs| ==> s.pcs[i] == Popping)
    && (forall i :: 0 <= i < |s.qs| ==> s.qs[i] == s.sent[i] == s.got[i] == [] && !s.closed[i])
  }

  ghost predicate Finished<T>(s: State<T>) {
    forall i :: 0 <= i < |s.pcs| ==> s.pcs[i] == Done
  }

  // ---------- the invariant ----------

  function Map<T>(f: T -> T, values: seq<T>): seq<T> {
    if values == [] then [] else [f(values[0])] + Map(f, values[1..])
  }

  predicate Closed(pc: Pc) { pc == WakeEmpty || pc == WakeFull || pc == Done }

  predicate Ended(pc: Pc) { pc == Closing || Closed(pc) }

  /** What queue i holds and has carried. */
  ghost predicate QueueOk<T>(s: State<T>, i: nat)
    requires Shape(s) && i < |s.qs|
  {
    && s.sent[i] == s.got[i] + s.qs[i] && |s.qs[i]| <= s.caps[i]
    && (s.caps[i] == 0 ==> s.sent[i] == [])
    && (s.closed[i] <==> Closed(s.pcs[i]))
  }

  /** What thread i has taken in so far. */
  ghost function Taken<T>(s: State<T>, i: nat): seq<T>
    requires Shape(s) && i < |s.qs|
  {
    if i == 0 then s.source[..s.next] else Map(s.stages[i - 1], s.got[i - 1])
  }

  /** Thread i passes on what it took in, transformed, in order; it ends on a closed and drained input. */
  ghost predicate ThreadOk<T>(s: State<T>, i: nat)
    requires Shape(s) && i < |s.qs|
  {
    && Taken(s, i) == s.sent[i] + s.hand[i]
    && (i == 0 ==> s.pcs[0] != PopAsleep && s.pcs[0] != PopWoken)
    && (Ended(s.pcs[i]) ==> if i == 0 then s.next == |s.source| else s.closed[i - 1] && s.qs[i - 1] == [])
  }

  ghost predicate SinkOk<T>(s: State<T>)
    requires Shape(s)
  {
    var k := |s.qs|;
    && s.output == s.got[k - 1]
    && (Pops(s.pcs[k]) || s.pcs[k] == Done)
    && (s.pcs[k] == Done ==> s.closed[k - 1] && s.qs[k - 1] == [])
  }

  /** Whoever sleeps on queue i has reason to, and will be woken. */
  ghost predicate WakeOk<T>(s: State<T>, i: nat)
    requires Shape(s) && i < |s.qs|
  {
    && (s.pcs[i] == SendAsleep ==> |s.qs[i]| >= s.caps[i])
    && (s.pcs[i + 1] == PopAsleep ==> s.qs[i] == [] && (s.closed[i] ==> s.pcs[i] == WakeEmpty))
  }

  ghost predicate LinkOk<T>(s: State<T>, i: nat)
    requires Shape(s) && i < |s.qs|
  {
    QueueOk(s, i) && ThreadOk(s, i) && WakeOk(s, i)
  }

  ghost predicate Inv<T>(s: State<T>) {
    && Shape(s) && SinkOk(s) && s.dropped == 0
    && forall i :: 0 <= i < |s.qs| ==> LinkOk(s, i)
  }

  lemma InitInv<T>(s: State<T>)
    requires Init(s)
    ensures Inv(s)
  {
  }

  lemma {:induction false} MapAppend<T>(f: T -> T, left: seq<T>, right: seq<T>)
    ensures Map(f, left + right) == Map(f, left) + Map(f, right)
  {
    if left == [] {
      assert left + right == right;
    } else {
      assert (left + right)[1..] == left[1..] + right;
      MapAppend(f, left[1..], right);
    }
  }

  /** What never changes. */
  ghost predicate SameProgram<T>(s0: State<T>, s: State<T>) {
    s.source == s0.source && s.stages == s0.stages && s.caps == s0.caps
  }

  lemma ShapePop<T>(s: State<T>, k: nat, t: State<T>)
    requires Next(s, Pop(k), t)
    ensures Shape(t) && SameProgram(s, t)
  {
  }

  lemma ShapeSend<T>(s: State<T>, k: nat, t: State<T>)
    requires Next(s, Send(k), t)
    ensures Shape(t) && SameProgram(s, t)
  {
  }

  lemma ShapeOther<T>(s: State<T>, a: Action, t: State<T>)
    requires Next(s, a, t) && !a.Pop? && !a.Send?
    ensures Shape(t) && SameProgram(s, t)
  {
  }

  /** What link i depends on. */
  lemma LinkFrame<T>(s: State<T>, t: State<T>, i: nat)
    requires Shape(s) && Shape(t) && i < |s.qs| == |t.qs| && LinkOk(s, i)
    requires SameProgram(s, t)
    requires t.qs[i] == s.qs[i] && t.closed[i] == s.closed[i] && t.pcs[i] == s.pcs[i]
    requires t.sent[i] == s.sent[i] && t.got[i] == s.got[i] && t.hand[i] == s.hand[i]
    requires t.pcs[i + 1] == PopAsleep ==> s.pcs[i + 1] == PopAsleep
    requires if i == 0 then t.next == s.next else
      t.got[i - 1] == s.got[i - 1] && t.closed[i - 1] == s.closed[i - 1] && t.qs[i - 1] == s.qs[i - 1]
    ensures LinkOk(t, i)
  {
  }

  lemma StepFetch<T>(s: State<T>, t: State<T>)
    requires Inv(s) && Next(s, Fetch, t)
    ensures Inv(t) && SameProgram(s, t)
  {
    assert s.source[..t.next] == s.source[..s.next] + t.hand[0];
    forall i | 0 <= i < |t.qs| ensures LinkOk(t, i) {
      assert LinkOk(s, i);
    }
  }

  lemma PopInput<T>(s: State<T>, k: nat, t: State<T>)
    requires Next(s, Pop(k), t) && Shape(t) && LinkOk(s, k - 1)
    ensures LinkOk(t, k - 1)
  {
    PopInputQueue(s, k, t);
    assert Taken(t, k - 1) == Taken(s, k - 1) && t.hand[k - 1] == s.hand[k - 1];
  }

  lemma PopInputQueue<T>(s: State<T>, k: nat, t: State<T>)
    requires Next(s, Pop(k), t) && Shape(t) && QueueOk(s, k - 1)
    ensures QueueOk(t, k - 1)
  {
    var i := k - 1;
    if s.qs[i] != [] {
      assert s.got[i] + s.qs[i] == t.got[i] + t.qs[i];
    } else {
      assert t.qs[i] == s.qs[i] && t.got[i] == s.got[i];
    }
  }

  lemma PopOutput<T>(s: State<T>, k: nat, t: State<T>)
    requires Next(s, Pop(k), t) && Shape(t) && k < |s.qs| && LinkOk(s, k - 1) && LinkOk(s, k)
    ensures LinkOk(t, k)
  {
    if s.qs[k - 1] != [] {
      var v := s.qs[k - 1][0];
      MapAppend(s.stages[k - 1], s.got[k - 1], [v]);
      assert Map(s.stages[k - 1], [v]) == [s.stages[k - 1](v)];
    }
  }

  lemma PopSink<T>(s: State<T>, k: nat, t: State<T>)
    requires Next(s, Pop(k), t) && Shape(t) && SinkOk(s)
    ensures SinkOk(t) && t.dropped == s.dropped
  {
  }

  lemma PopLink<T>(s: State<T>, k: nat, t: State<T>, i: nat)
    requires Next(s, Pop(k), t) && Shape(t) && SameProgram(s, t) && i < |s.qs|
    requires LinkOk(s, i) && LinkOk(s, k - 1)
    ensures LinkOk(t, i)
  {
    if i == k {
      PopOutput(s, k, t);
    } else if i + 1 == k {
      PopInput(s, k, t);
    } else {
      LinkFrame(s, t, i);
    }
  }

  lemma StepPop<T>(s: State<T>, k: nat, t: State<T>)
    requires Inv(s) && Next(s, Pop(k), t)
    ensures Inv(t) && SameProgram(s, t)
  {
    ShapePop(s, k, t);
    assert LinkOk(s, k - 1);
    PopSink(s, k, t);
    forall i | 0 <= i < |t.qs| ensures LinkOk(t, i) {
      PopLink(s, k, t, i);
    }
  }

  lemma SendOutput<T>(s: State<T>, k: nat, t: State<T>)
    requires Next(s, Send(k), t) && Shape(t) && LinkOk(s, k)
    ensures LinkOk(t, k) && t.dropped == s.dropped
  {
    assert s.sent[k] + s.hand[k] == t.sent[k] + t.hand[k];
  }

  /** The thread after a send may be woken; its own link stays as it is. */
  lemma SendNeighbour<T>(s: State<T>, k: nat, t: State<T>)
    requires Next(s, Send(k), t) && Shape(t) && LinkOk(s, k) && k + 1 < |s.qs| && LinkOk(s, k + 1)
    ensures LinkOk(t, k + 1)
  {
  }

  lemma SendLink<T>(s: State<T>, k: nat, t: State<T>, i: nat)
    requires Next(s, Send(k), t) && Shape(t) && SameProgram(s, t) && i < |s.qs|
    requires LinkOk(s, i) && LinkOk(s, k)
    ensures LinkOk(t, i)
  {
    if i == k {
      SendOutput(s, k, t);
    } else if i == k + 1 {
      SendNeighbour(s, k, t);
    } else {
      LinkFrame(s, t, i);
    }
  }

  lemma SendSink<T>(s: State<T>, k: nat, t: State<T>)
    requires Next(s, Send(k), t) && Shape(t) && SinkOk(s) && LinkOk(s, k)
    ensures SinkOk(t) && t.dropped == s.dropped
  {
    var n := |s.qs|;
    assert t.output == s.output && t.got == s.got && t.closed == s.closed;
    assert s.pcs[n] == Done ==> t.pcs[n] == Done && t.qs[n - 1] == s.qs[n - 1];
  }

  lemma StepSend<T>(s: State<T>, k: nat, t: State<T>)
    requires Inv(s) && Next(s, Send(k), t)
    ensures Inv(t) && SameProgram(s, t)
  {
    ShapeSend(s, k, t);
    assert LinkOk(s, k);
    SendSink(s, k, t);
    forall i | 0 <= i < |t.qs| ensures LinkOk(t, i) {
      SendLink(s, k, t, i);
    }
  }

  lemma CloseOwn<T>(s: State<T>, a: Action, t: State<T>)
    requires a.Close? || a.NotifyEmpty? || a.NotifyFull?
    requires Next(s, a, t) && Shape(t) && LinkOk(s, a.i)
    ensures LinkOk(t, a.i)
  {
  }

  lemma CloseNeighbour<T>(s: State<T>, a: Action, t: State<T>)
    requires a.Close? || a.NotifyEmpty? || a.NotifyFull?
    requires Next(s, a, t) && Shape(t) && a.i + 1 < |s.qs| && LinkOk(s, a.i) && LinkOk(s, a.i + 1)
    ensures LinkOk(t, a.i + 1)
  {
  }

  lemma CloseLink<T>(s: State<T>, a: Action, t: State<T>, i: nat)
    requires a.Close? || a.NotifyEmpty? || a.NotifyFull?
    requires Next(s, a, t) && Shape(t) && SameProgram(s, t) && i < |s.qs|
    requires LinkOk(s, i) && LinkOk(s, a.i)
    ensures LinkOk(t, i)
  {
    if i == a.i {
      CloseOwn(s, a, t);
    } else if i == a.i + 1 {
      CloseNeighbour(s, a, t);
    } else {
      LinkFrame(s, t, i);
    }
  }

  lemma CloseSink<T>(s: State<T>, a: Action, t: State<T>)
    requires a.Close? || a.NotifyEmpty? || a.NotifyFull?
    requires Next(s, a, t) && Shape(t) && SinkOk(s)
    ensures SinkOk(t) && t.dropped == s.dropped
  {
  }

  lemma StepClose<T>(s: State<T>, a: Action, t: State<T>)
    requires a.Close? || a.NotifyEmpty? || a.NotifyFull?
    requires Inv(s) && Next(s, a, t)
    ensures Inv(t) && SameProgram(s, t)
  {
    ShapeOther(s, a, t);
    assert LinkOk(s, a.i);
    CloseSink(s, a, t);
    forall i | 0 <= i < |t.qs| ensures LinkOk(t, i) {
      CloseLink(s, a, t, i);
    }
  }

  lemma StepSpurious<T>(s: State<T>, k: nat, t: State<T>)
    requires Inv(s) && Next(s, Spurious(k), t)
    ensures Inv(t) && SameProgram(s, t)
  {
    ShapeOther(s, Spurious(k), t);
    forall i | 0 <= i < |t.qs| ensures LinkOk(t, i) {
      assert LinkOk(s, i);
      if i != k {
        LinkFrame(s, t, i);
      }
    }
  }

  lemma StepInv<T>(s: State<T>, a: Action, t: State<T>)
    requires Inv(s) && Next(s, a, t)
    ensures Inv(t) && SameProgram(s, t)
  {
    match a
    case Fetch => StepFetch(s, t);
    case Pop(k) => StepPop(s, k, t);
    case Send(k) => StepSend(s, k, t);
    case Spurious(k) => StepSpurious(s, k, t);
    case _ => StepClose(s, a, t);
  }

  lemma Reachable<T(!new)>(s0: State<T>, acts: seq<Action>, s: State<T>)
    requires Init(s0) && Run(Next<T>, s0, acts, s)
    ensures Inv(s) && SameProgram(s0, s)
  {
    InitInv(s0);
    var inv := (x: State<T>) => Inv(x) && SameProgram(s0, x);
    forall x, a, y | inv(x) && Next(x, a, y) ensures inv(y) {
      StepInv(x, a, y);
    }
    RunInvariant(Next<T>, inv, s0, acts, s);
  }

  // ---------- meaning ----------

  /** What the stages from i on make of a value. */
  function Through<T>(stages: seq<T -> T>, i: nat, v: T): T
    decreases |stages| - i
  {
    if i >= |stages| then v else Through(stages, i + 1, stages[i](v))
  }

  function MapThrough<T>(stages: seq<T -> T>, i: nat, values: seq<T>): seq<T> {
    if values == [] then [] else [Through(stages, i, values[0])] + MapThrough(stages, i, values[1..])
  }

  lemma {:induction false} MapThroughAppend<T>(stages: seq<T -> T>, i: nat, left: seq<T>, right: seq<T>)
    ensures MapThrough(stages, i, left + right) == MapThrough(stages, i, left) + MapThrough(stages, i, right)
  {
    if left == [] {
      assert left + right == right;
    } else {
      assert (left + right)[1..] == left[1..] + right;
      MapThroughAppend(stages, i, left[1..], right);
    }
  }

  /** Going through stage i and then the rest is going through the stages from i on. */
  lemma {:induction false} MapThroughStage<T>(stages: seq<T -> T>, i: nat, values: seq<T>)
    requires i < |stages|
    ensures MapThrough(stages, i + 1, Map(stages[i], values)) == MapThrough(stages, i, values)
  {
    if values != [] {
      MapThroughStage(stages, i, values[1..]);
    }
  }

  /** What queue i holds and thread i has in hand, oldest first, pushed through the stages ahead of it. */
  ghost function Piece<T>(s: State<T>, i: nat): seq<T>
    requires Shape(s) && i < |s.qs|
  {
    MapThrough(s.stages, i, s.qs[i]) + MapThrough(s.stages, i, s.hand[i])
  }

  /** What has come out of queue i, pushed through the stages ahead. */
  ghost function Past<T>(s: State<T>, i: nat): seq<T>
    requires Shape(s) && i < |s.qs|
  {
    MapThrough(s.stages, i, s.got[i])
  }

  /** The last i pieces back to front: what is nearer the sink comes first. */
  function Join<T>(pieces: seq<seq<T>>, i: nat): seq<T>
    requires i <= |pieces|
  {
    if i == 0 then [] else pieces[i - 1] + Join(pieces, i - 1)
  }

  ghost function Pieces<T>(s: State<T>): seq<seq<T>>
    requires Shape(s)
  {
    seq(|s.qs|, i requires 0 <= i < |s.qs| => Piece(s, i))
  }

  /** Everything between source and sink, in the order in which it will come out, as it will come out. */
  ghost function UnderWay<T>(s: State<T>): seq<T>
    requires Shape(s)
  {
    Join(Pieces(s), |s.qs|)
  }

  lemma Flow<T>(stages: seq<T -> T>, i: nat, got: seq<T>, q: seq<T>, hand: seq<T>)
    ensures MapThrough(stages, i, got + q + hand)
         == MapThrough(stages, i, got) + (MapThrough(stages, i, q) + MapThrough(stages, i, hand))
  {
    MapThroughAppend(stages, i, got, q);
    MapThroughAppend(stages, i, got + q, hand);
  }

  /** What thread i has taken in is behind queue i, in it, or in hand. */
  lemma LinkFlow<T>(s: State<T>, i: nat)
    requires Shape(s) && i < |s.qs| && LinkOk(s, i)
    ensures MapThrough(s.stages, i, Taken(s, i)) == Past(s, i) + Piece(s, i)
  {
    Flow(s.stages, i, s.got[i], s.qs[i], s.hand[i]);
  }

  /** If each place has what the place before it has let go, the last one and all pieces make the whole. */
  lemma {:induction false} Telescope<T>(past: seq<seq<T>>, pieces: seq<seq<T>>, whole: seq<T>, i: nat)
    requires i < |past| == |pieces| && past[0] + pieces[0] == whole
    requires forall j :: 0 < j < |past| ==> past[j] + pieces[j] == past[j - 1]
    ensures past[i] + Join(pieces, i + 1) == whole
  {
    if i == 0 {
      assert Join(pieces, 1) == pieces[0] + [];
    } else {
      Telescope(past, pieces, whole, i - 1);
      assert past[i] + (pieces[i] + Join(pieces, i)) == (past[i] + pieces[i]) + Join(pieces, i);
    }
  }

  lemma LaterFlow<T>(s: State<T>, i: nat)
    requires Shape(s) && 0 < i < |s.qs| && LinkOk(s, i)
    ensures Past(s, i) + Piece(s, i) == Past(s, i - 1)
  {
    LinkFlow(s, i);
    MapThroughStage(s.stages, i - 1, s.got[i - 1]);
  }

  ghost function Pasts<T>(s: State<T>): seq<seq<T>>
    requires Shape(s)
  {
    seq(|s.qs|, i requires 0 <= i < |s.qs| => Past(s, i))
  }

  lemma FlowsMeet<T>(s: State<T>)
    requires Inv(s)
    ensures Pasts(s)[0] + Pieces(s)[0] == MapThrough(s.stages, 0, s.source[..s.next])
    ensures forall j :: 0 < j < |s.qs| ==> Pasts(s)[j] + Pieces(s)[j] == Pasts(s)[j - 1]
  {
    assert LinkOk(s, 0);
    LinkFlow(s, 0);
    forall j | 0 < j < |s.qs| ensures Pasts(s)[j] + Pieces(s)[j] == Pasts(s)[j - 1] {
      assert LinkOk(s, j);
      LaterFlow(s, j);
    }
  }

  lemma InvMeaning<T>(s: State<T>)
    requires Inv(s)
    ensures s.output + UnderWay(s) == MapThrough(s.stages, 0, s.source[..s.next])
  {
    var k := |s.qs|;
    FlowsMeet(s);
    Telescope(Pasts(s), Pieces(s), MapThrough(s.stages, 0, s.source[..s.next]), k - 1);
    MapThroughEnd(s.stages, s.got[k - 1]);
  }

  /**
    At every moment of every run, what the sink has output followed by everything
    under way is the source prefix read so far, through all stages, in order.  No
    value is dropped and every queue is within its capacity.
   */
  lemma MeaningAlways<T(!new)>(s0: State<T>, acts: seq<Action>, s: State<T>)
    requires Init(s0) && Run(Next<T>, s0, acts, s)
    ensures Shape(s) && |s.qs| == |s0.caps| && s.dropped == 0 && s.next <= |s0.source|
    ensures s.output + UnderWay(s) == MapThrough(s0.stages, 0, s0.source[..s.next])
    ensures forall i :: 0 <= i < |s.qs| ==> |s.qs[i]| <= s0.caps[i]
  {
    Reachable(s0, acts, s);
    InvMeaning(s);
    forall i | 0 <= i < |s.qs| ensures |s.qs[i]| <= s0.caps[i] {
      assert LinkOk(s, i);
    }
  }

  lemma {:induction false} MapThroughEnd<T>(stages: seq<T -> T>, values: seq<T>)
    ensures MapThrough(stages, |stages|, values) == values
  {
    if values != [] {
      MapThroughEnd(stages, values[1..]);
    }
  }

  // ---------- deadlock freedom ----------

  /** An empty source needs no room; anything else needs room in every queue. */
  predicate Live<T>(s: State<T>) {
    |s.source| == 0 || forall i :: 0 <= i < |s.caps| ==> s.caps[i] > 0
  }

  lemma RestMeansAsleep<T(!new)>(s: State<T>)
    requires Inv(s) && AtRest(Proper<T>, s)
    ensures forall i :: 0 <= i < |s.pcs| ==> s.pcs[i] == PopAsleep || s.pcs[i] == SendAsleep || s.pcs[i] == Done
  {
    forall i | 0 <= i < |s.pcs|
      ensures s.pcs[i] == PopAsleep || s.pcs[i] == SendAsleep || s.pcs[i] == Done
    {
      var a := match s.pcs[i]
        case Popping => if i == 0 then Fetch else Pop(i)
        case PopWoken => Pop(i)
        case Sending => Send(i)
        case SendWoken => Send(i)
        case Closing => Close(i)
        case WakeEmpty => NotifyEmpty(i)
        case _ => NotifyFull(i);
      if i < |s.qs| {
        assert LinkOk(s, i);
      }
      assert Enabled(s, a) ==> Proper(s, a, Apply(s, a));
    }
  }

  lemma {:induction false} MapLength<T>(f: T -> T, values: seq<T>)
    ensures |Map(f, values)| == |values|
  {
    if values != [] {
      MapLength(f, values[1..]);
    }
  }

  /** No thread has passed on more than the source has read. */
  lemma {:induction false} Carried<T>(s: State<T>, i: nat)
    requires Inv(s) && i < |s.qs|
    ensures |s.got[i]| <= |s.sent[i]| && |s.sent[i]| + |s.hand[i]| <= s.next
  {
    assert LinkOk(s, i);
    if i > 0 {
      Carried(s, i - 1);
      MapLength(s.stages[i - 1], s.got[i - 1]);
    }
  }

  /** Back-pressure is released from the sink end. */
  lemma {:induction false} NobodyStuckSending<T(!new)>(s: State<T>, i: nat)
    requires Inv(s) && AtRest(Proper<T>, s) && Live(s) && i < |s.qs|
    ensures s.pcs[i] != SendAsleep
    decreases |s.qs| - i
  {
    RestMeansAsleep(s);
    assert LinkOk(s, i);
    Carried(s, i);
    if i + 1 < |s.qs| {
      assert LinkOk(s, i + 1);
      NobodyStuckSending(s, i + 1);
    }
  }

  /** Items reach a waiting thread from the source end. */
  lemma {:induction false} NobodyStuckPopping<T(!new)>(s: State<T>, i: nat)
    requires Inv(s) && AtRest(Proper<T>, s) && Live(s) && i < |s.pcs|
    ensures s.pcs[i] != PopAsleep
  {
    RestMeansAsleep(s);
    if i == 0 {
      assert LinkOk(s, 0);
    } else {
      assert LinkOk(s, i - 1);
      NobodyStuckSending(s, i - 1);
      NobodyStuckPopping(s, i - 1);
    }
  }

  lemma RestMeansFinished<T(!new)>(s: State<T>)
    requires Inv(s) && AtRest(Proper<T>, s) && Live(s)
    ensures Finished(s)
  {
    RestMeansAsleep(s);
    forall i | 0 <= i < |s.pcs| ensures s.pcs[i] == Done {
      NobodyStuckPopping(s, i);
      if i < |s.qs| {
        NobodyStuckSending(s, i);
      }
    }
  }

  /** A finished pipeline has carried the whole source through every queue. */
  lemma {:induction false} FinishedCarriesAll<T>(s: State<T>, i: nat)
    requires Inv(s) && Finished(s) && i < |s.qs|
    ensures |s.sent[i]| == |s.source| && s.qs[i] == [] && s.hand[i] == []
  {
    assert LinkOk(s, i);
    if i + 1 < |s.qs| {
      assert LinkOk(s, i + 1);
    }
    if i > 0 {
      FinishedCarriesAll(s, i - 1);
      MapLength(s.stages[i - 1], s.got[i - 1]);
      assert LinkOk(s, i - 1);
    }
  }

  lemma {:induction false} JoinEmpty<T>(pieces: seq<seq<T>>, i: nat)
    requires i <= |pieces| && forall j :: 0 <= j < |pieces| ==> pieces[j] == []
    ensures Join(pieces, i) == []
  {
    if i > 0 {
      JoinEmpty(pieces, i - 1);
    }
  }

  lemma FinishedUnderWay<T>(s: State<T>)
    requires Inv(s) && Finished(s)
    ensures UnderWay(s) == []
  {
    forall i | 0 <= i < |s.qs| ensures Pieces(s)[i] == [] {
      FinishedCarriesAll(s, i);
    }
    JoinEmpty(Pieces(s), |s.qs|);
  }

  // ---------- termination ----------

  function Weight(pc: Pc): nat {
    match pc
    case Popping => 6
    case PopWoken => 6
    case Sending => 6
    case SendWoken => 6
    case PopAsleep => 5
    case SendAsleep => 5
    case Closing => 4
    case WakeEmpty => 3
    case WakeFull => 1
    case Done => 0
  }

  function Left<T>(n: nat): seq<T> -> nat {
    xs => if |xs| <= n then n - |xs| else 0
  }

  function Measure<T>(s: State<T>): nat {
    var n := |s.source|;
    (if s.next <= n then n - s.next else 0)
    + 2 * Sum(Left(n), s.sent) + 2 * Sum(Left(n), s.got) + Sum(Weight, s.pcs)
  }

  function Credit(a: Action): nat { if a.Spurious? then 2 else 0 }

  lemma NotifyWeight(pcs: seq<Pc>, i: nat, asleep: Pc, woken: Pc)
    requires Weight(woken) == Weight(asleep) + 1
    ensures Sum(Weight, Notify(pcs, i, asleep, woken)) <= Sum(Weight, pcs) + 1
  {
    if i < |pcs| && pcs[i] == asleep {
      SumUpdate(Weight, pcs, i, woken);
    }
  }

  lemma PaidPop<T>(s: State<T>, k: nat, t: State<T>)
    requires Next(s, Pop(k), t) && |s.got[k - 1]| + |s.qs[k - 1]| <= |s.source|
    ensures Measure(t) < Measure(s)
  {
    if s.qs[k - 1] == [] {
      SumUpdate(Weight, s.pcs, k, t.pcs[k]);
    } else {
      var pc := if k == |s.qs| then Popping else Sending;
      SumUpdate(Weight, s.pcs, k, pc);
      NotifyWeight(s.pcs[k := pc], k - 1, SendAsleep, SendWoken);
      SumUpdate(Left(|s.source|), s.got, k - 1, t.got[k - 1]);
    }
  }

  lemma PaidSend<T>(s: State<T>, k: nat, t: State<T>)
    requires Next(s, Send(k), t) && !s.closed[k] && |s.sent[k]| + |s.hand[k]| <= |s.source|
    ensures Measure(t) < Measure(s)
  {
    if |s.qs[k]| >= s.caps[k] {
      SumUpdate(Weight, s.pcs, k, SendAsleep);
    } else {
      SumUpdate(Weight, s.pcs, k, Popping);
      NotifyWeight(s.pcs[k := Popping], k + 1, PopAsleep, PopWoken);
      SumUpdate(Left(|s.source|), s.sent, k, t.sent[k]);
    }
  }

  lemma PaidClose<T>(s: State<T>, a: Action, t: State<T>)
    requires a.Close? || a.NotifyEmpty? || a.NotifyFull?
    requires Next(s, a, t)
    ensures Measure(t) < Measure(s)
  {
    if a.NotifyEmpty? {
      SumUpdate(Weight, s.pcs, a.i, WakeFull);
      NotifyWeight(s.pcs[a.i := WakeFull], a.i + 1, PopAsleep, PopWoken);
    } else {
      SumUpdate(Weight, s.pcs, a.i, t.pcs[a.i]);
    }
  }

  lemma PaidLocal<T>(s: State<T>, a: Action, t: State<T>)
    requires (a.Fetch? || a.Spurious?) && Next(s, a, t)
    ensures Measure(t) + 1 <= Measure(s) + Credit(a)
  {
    var i := if a.Fetch? then 0 else a.i;
    SumUpdate(Weight, s.pcs, i, t.pcs[i]);
  }

  /** There is still something to carry wherever a value enters or leaves a queue. */
  lemma RoomToPay<T>(s: State<T>, a: Action)
    requires Inv(s) && Enabled(s, a)
    ensures a.Pop? ==> |s.got[a.i - 1]| + |s.qs[a.i - 1]| <= |s.source|
    ensures a.Send? ==> !s.closed[a.i] && |s.sent[a.i]| + |s.hand[a.i]| <= |s.source|
  {
    if a.Pop? {
      Carried(s, a.i - 1);
      assert LinkOk(s, a.i - 1);
    } else if a.Send? {
      Carried(s, a.i);
      assert LinkOk(s, a.i);
    }
  }

  lemma PaidStep<T>(s: State<T>, a: Action, t: State<T>)
    requires Inv(s) && Next(s, a, t)
    ensures Measure(t) + 1 <= Measure(s) + Credit(a)
  {
    RoomToPay(s, a);
    match a
    case Pop(k) => PaidPop(s, k, t);
    case Send(k) => PaidSend(s, k, t);
    case Fetch => PaidLocal(s, a, t);
    case Spurious(k) => PaidLocal(s, a, t);
    case _ => PaidClose(s, a, t);
  }

  lemma MeasureAtStart<T>(s: State<T>)
    requires Init(s)
    ensures var n, k := |s.source|, |s.caps|; Measure(s) == n + 4 * (n * k) + 6 * (k + 1)
  {
    SumConstant(Left(|s.source|), s.sent, |s.source|);
    SumConstant(Left(|s.source|), s.got, |s.source|);
    SumConstant(Weight, s.pcs, 6);
  }

  /** Every run is finite: each value enters and leaves each queue once. */
  lemma RunsAreFinite<T(!new)>(s0: State<T>, acts: seq<Action>, s: State<T>)
    requires Init(s0) && Run(Next<T>, s0, acts, s)
    ensures var n, k := |s0.source|, |s0.caps|;
            |acts| <= n + 4 * (n * k) + 6 * (k + 1) + Total(Credit, acts)
  {
    InitInv(s0);
    var measure := (x: State<T>) => Measure(x) as int;
    forall x: State<T>, a, y: State<T> | Inv(x) && Next(x, a, y)
      ensures Inv(y) && measure(y) + 1 <= measure(x) + Credit(a)
    {
      StepInv(x, a, y);
      PaidStep(x, a, y);
    }
    RunLength(Next<T>, Inv<T>, measure, Credit, s0, acts, s);
    MeasureAtStart(s0);
  }

  // ---------- the main results ----------

  /** Run until nothing more can happen, a live pipeline has output the whole source, transformed, in order. */
  lemma EveryScheduleDelivers<T(!new)>(s0: State<T>, acts: seq<Action>, s: State<T>)
    requires Init(s0) && Live(s0) && Run(Next<T>, s0, acts, s) && AtRest(Proper<T>, s)
    ensures Finished(s) && s.dropped == 0
    ensures s.output == MapThrough(s0.stages, 0, s0.source)
  {
    Reachable(s0, acts, s);
    RestMeansFinished(s);
    FinishedOutput(s);
  }

  lemma FinishedOutput<T>(s: State<T>)
    requires Inv(s) && Finished(s)
    ensures s.output == MapThrough(s.stages, 0, s.source)
  {
    InvMeaning(s);
    FinishedUnderWay(s);
    assert LinkOk(s, 0);
    assert s.source[..s.next] == s.source;
  }

  lemma SomeRunRests<T(!new)>(s0: State<T>) returns (acts: seq<Action>, s: State<T>)
    requires Init(s0)
    ensures Run(Next<T>, s0, acts, s) && AtRest(Proper<T>, s)
  {
    InitInv(s0);
    forall x: State<T>, a, y: State<T> | Inv(x) && Proper(x, a, y) ensures Inv(y) && Measure(y) < Measure(x) {
      StepInv(x, a, y);
      PaidStep(x, a, y);
    }
    acts, s := RunToRest(Proper<T>, Inv<T>, Measure<T>, s0);
    Weaken(Proper<T>, Next<T>, s0, acts, s);
  }

  lemma FinishedMeansLive<T>(s: State<T>)
    requires Inv(s) && Finished(s)
    ensures Live(s)
  {
    forall i | 0 <= i < |s.caps| && |s.source| > 0 ensures s.caps[i] > 0 {
      FinishedCarriesAll(s, i);
      assert LinkOk(s, i);
    }
  }

  /** A pipeline can stop with a thread asleep exactly if it has something to carry and a queue without room. */
  lemma DeadlockFreeExactlyWhenLive<T(!new)>(s0: State<T>)
    requires Init(s0)
    ensures Live(s0) <==>
      forall acts, s :: Run(Next<T>, s0, acts, s) && AtRest(Proper<T>, s) ==> Finished(s)
  {
    if Live(s0) {
      forall acts, s | Run(Next<T>, s0, acts, s) && AtRest(Proper<T>, s) ensures Finished(s) {
        Reachable(s0, acts, s);
        RestMeansFinished(s);
      }
    } else {
      var acts, s := SomeRunRests(s0);
      Reachable(s0, acts, s);
      assert Run(Next<T>, s0, acts, s) && AtRest(Proper<T>, s);
      if Finished(s) {
        FinishedMeansLive(s);
        assert false;
      }
    }
  }

  // ---------- what the scheduler may do ----------

  /** Any sleeper may wake for nothing. */
  lemma AnySleeperMayWake<T>(s: State<T>, i: nat)
    requires Shape(s) && i < |s.pcs| && (s.pcs[i] == PopAsleep || s.pcs[i] == SendAsleep)
    ensures Enabled(s, Spurious(i))
  {
  }

  // ---------- the pipeline, in place ----------

  lemma OpenWhileSending<T>(s: State<T>, i: nat)
    requires Inv(s) && Enabled(s, Send(i))
    ensures !s.closed[i] && |s.qs[i]| <= s.caps[i]
  {
    assert LinkOk(s, i);
  }

  /** A thread that is asleep is woken. */
  predicate Wakes(before: Pc, after: Pc, asleep: Pc, woken: Pc) {
    after == if before == asleep then woken else before
  }

  /**
    What pop by thread i does.  On an empty queue the thread sleeps, or ends if the queue is
    closed.  Otherwise it takes the oldest item; the sink outputs it, a stage gets ready to
    send what it makes of it; and the thread that sleeps on the other side is woken.
   */
  ghost predicate Popped<T>(i: nat, s: State<T>, t: State<T>)
    requires Enabled(s, Pop(i)) && Shape(t) && |t.caps| == |s.caps|
  {
    var q, last := s.qs[i - 1], i == |s.qs|;
    && (q == [] ==> t.qs == s.qs && t.hand == s.hand && t.output == s.output)
    && (q == [] ==> t.pcs == s.pcs[i := if !s.closed[i - 1] then PopAsleep else if last then Done else Closing])
    && (q != [] ==> t.qs == s.qs[i - 1 := q[1..]])
    && (q != [] && last ==> t.output == s.output + [q[0]] && t.hand == s.hand && t.pcs[i] == Popping)
    && (q != [] && !last ==> t.output == s.output && t.hand == s.hand[i := [s.stages[i - 1](q[0])]])
    && (q != [] && !last ==> t.pcs[i] == Sending)
    && (q != [] ==> Wakes(s.pcs[i - 1], t.pcs[i - 1], SendAsleep, SendWoken))
    && (forall j :: 0 <= j < |s.pcs| && j != i && j != i - 1 ==> t.pcs[j] == s.pcs[j])
  }

  lemma PopEffect<T>(s: State<T>, i: nat)
    requires Enabled(s, Pop(i))
    ensures var t := Apply(s, Pop(i)); Shape(t) && |t.caps| == |s.caps| && Popped(i, s, t)
  {
  }

  /** What push by thread i does on an open queue: it sleeps if that is full, or appends what it holds and wakes. */
  ghost predicate Pushed<T>(i: nat, s: State<T>, t: State<T>)
    requires Enabled(s, Send(i)) && Shape(t) && |t.caps| == |s.caps|
  {
    var full := |s.qs[i]| >= s.caps[i];
    && (full ==> t.pcs == s.pcs[i := SendAsleep] && t.qs == s.qs && t.hand == s.hand)
    && (!full ==> t.qs == s.qs[i := s.qs[i] + s.hand[i]] && t.hand == s.hand[i := []] && t.pcs[i] == Popping)
    && (!full ==> Wakes(s.pcs[i + 1], t.pcs[i + 1], PopAsleep, PopWoken))
    && (forall j :: 0 <= j < |s.pcs| && j != i && j != i + 1 ==> t.pcs[j] == s.pcs[j])
  }

  /** The queues, what each thread holds and where it is, updated in place by one method a step. */
  class Line<T> {
    const source: seq<T>
    const stages: seq<T -> T>
    const caps: seq<nat>
    var next: nat
    var pcs: seq<Pc>
    var hand: seq<seq<T>>
    var qs: seq<seq<T>>
    var closed: seq<bool>
    var output: seq<T>
    ghost var sent: seq<seq<T>>
    ghost var got: seq<seq<T>>
    ghost var dropped: nat

    ghost function Snapshot(): State<T>
      reads this
    {
      State(source, stages, caps, next, pcs, hand, qs, closed, output, sent, got, dropped)
    }

    ghost predicate Valid()
      reads this
    {
      Inv(Snapshot())
    }

    constructor (source: seq<T>, stages: seq<T -> T>, caps: seq<nat>)
      requires |caps| == |stages| + 1
      ensures Init(Snapshot()) && Valid()
      ensures this.source == source && this.stages == stages && this.caps == caps
    {
      this.source, this.stages, this.caps := source, stages, caps;
      next, output, dropped := 0, [], 0;
      pcs, hand := seq(|caps| + 1, _ => Popping), seq(|caps| + 1, _ => []);
      qs, closed := seq(|caps|, _ => []), seq(|caps|, _ => false);
      sent, got := seq(|caps|, _ => []), seq(|caps|, _ => []);
      new;
      InitInv(Snapshot());
    }

    /** The head of the source's loop. */
    method Fetch()
      requires Valid() && Enabled(Snapshot(), Action.Fetch)
      modifies `next, `pcs, `hand
      ensures Valid() && Snapshot() == Apply(old(Snapshot()), Action.Fetch)
      ensures old(next) == |source| ==> pcs == old(pcs)[0 := Closing] && next == old(next) && hand == old(hand)
      ensures old(next) < |source| ==> pcs == old(pcs)[0 := Sending] && next == old(next) + 1
      ensures old(next) < |source| ==> hand == old(hand)[0 := [source[old(next)]]]
    {
      ghost var before := Snapshot();
      if next == |source| {
        pcs := pcs[0 := Closing];
      } else {
        hand := hand[0 := [source[next]]];
        next := next + 1;
        pcs := pcs[0 := Sending];
      }
      StepInv(before, Action.Fetch, Snapshot());
    }

    /** pop from queue i - 1, and the stage function or the output of what came. */
    method Pop(i: nat) returns (blocked: bool)
      requires Valid() && Enabled(Snapshot(), Action.Pop(i))
      modifies `pcs, `hand, `qs, `output, `got
      ensures Valid() && Snapshot() == Apply(old(Snapshot()), Action.Pop(i))
      ensures blocked <==> old(qs)[i - 1] == [] && !closed[i - 1]
      ensures Popped(i, old(Snapshot()), Snapshot())
    {
      ghost var before := Snapshot();
      PopEffect(before, i);
      blocked := TakeOne(i);
      StepInv(before, Action.Pop(i), Snapshot());
    }

    method TakeOne(i: nat) returns (blocked: bool)
      requires Enabled(Snapshot(), Action.Pop(i))
      modifies `pcs, `hand, `qs, `output, `got
      ensures Snapshot() == Apply(old(Snapshot()), Action.Pop(i))
      ensures blocked <==> old(qs)[i - 1] == [] && !closed[i - 1]
    {
      var q := qs[i - 1];
      blocked := q == [] && !closed[i - 1];
      if blocked {
        pcs := pcs[i := PopAsleep];
      } else if q == [] {
        pcs := pcs[i := if i == |qs| then Done else Closing];
      } else {
        qs, got := qs[i - 1 := q[1..]], got[i - 1 := got[i - 1] + [q[0]]];
        if i == |qs| {
          output := output + [q[0]];
          pcs := Notify(pcs[i := Popping], i - 1, SendAsleep, SendWoken);
        } else {
          hand := hand[i := [stages[i - 1](q[0])]];
          pcs := Notify(pcs[i := Sending], i - 1, SendAsleep, SendWoken);
        }
      }
    }

    /** push to queue i; the closed check never drops a value. */
    method Send(i: nat) returns (blocked: bool)
      requires Valid() && Enabled(Snapshot(), Action.Send(i))
      modifies `pcs, `hand, `qs, `sent, `dropped
      ensures Valid() && Snapshot() == Apply(old(Snapshot()), Action.Send(i))
      ensures blocked <==> |old(qs)[i]| == caps[i]
      ensures dropped == old(dropped) && Pushed(i, old(Snapshot()), Snapshot())
    {
      ghost var before := Snapshot();
      OpenWhileSending(before, i);
      blocked := PutOne(i);
      StepInv(before, Action.Send(i), Snapshot());
    }

    method PutOne(i: nat) returns (blocked: bool)
      requires Enabled(Snapshot(), Action.Send(i))
      modifies `pcs, `hand, `qs, `sent, `dropped
      ensures Snapshot() == Apply(old(Snapshot()), Action.Send(i))
      ensures blocked <==> |old(qs)[i]| >= caps[i] && !closed[i]
      ensures !closed[i] ==> dropped == old(dropped) && Pushed(i, old(Snapshot()), Snapshot())
    {
      blocked := |qs[i]| >= caps[i] && !closed[i];
      if blocked {
        pcs := pcs[i := SendAsleep];
      } else if closed[i] {
        pcs, hand, dropped := pcs[i := Popping], hand[i := []], dropped + 1;
      } else {
        qs := qs[i := qs[i] + hand[i]];
        sent := sent[i := sent[i] + hand[i]];
        hand := hand[i := []];
        pcs := Notify(pcs[i := Popping], i + 1, PopAsleep, PopWoken);
      }
    }

    /** close, up to releasing the lock. */
    method Close(i: nat)
      requires Valid() && Enabled(Snapshot(), Action.Close(i))
      modifies `closed, `pcs
      ensures Valid() && Snapshot() == Apply(old(Snapshot()), Action.Close(i))
      ensures closed == old(closed)[i := true] && pcs == old(pcs)[i := WakeEmpty]
    {
      ghost var before := Snapshot();
      closed := closed[i := true];
      pcs := pcs[i := WakeEmpty];
      StepInv(before, Action.Close(i), Snapshot());
    }

    /** The two notify_all calls of close, and spurious wakeups. */
    method Other(a: Action)
      requires a.NotifyEmpty? || a.NotifyFull? || a.Spurious?
      requires Valid() && Enabled(Snapshot(), a)
      modifies `pcs
      ensures Valid() && Snapshot() == Apply(old(Snapshot()), a)
      ensures a.NotifyEmpty? ==> pcs[a.i] == WakeFull && Wakes(old(pcs)[a.i + 1], pcs[a.i + 1], PopAsleep, PopWoken)
      ensures a.NotifyFull? ==> pcs[a.i] == Done && pcs[a.i + 1] == old(pcs)[a.i + 1]
      ensures a.Spurious? ==> pcs[a.i] == if old(pcs)[a.i] == PopAsleep then PopWoken else SendWoken
      ensures forall j :: 0 <= j < |pcs| && j != a.i && (a.NotifyEmpty? ==> j != a.i + 1) ==> pcs[j] == old(pcs)[j]
    {
      ghost var before := Snapshot();
      match a {
        case NotifyEmpty(i) => pcs := Notify(pcs[i := WakeFull], i + 1, PopAsleep, PopWoken);
        case NotifyFull(i) => pcs := pcs[i := Done];
        case Spurious(i) => pcs := pcs[i := if pcs[i] == PopAsleep then PopWoken else SendWoken];
      }
      StepInv(before, a, Snapshot());
    }
  }
}
