/**
  What a condition variable does to the threads waiting on it, by the contract of
  section 33.5 of ISO C++17: notify_one wakes one sleeper if there is any, and
  notify_all wakes them all.  `pcs` holds one program counter a thread.
 */
module Waiting {

  /** How many threads are at a program counter. */
  function Count<T(==)>(pcs: seq<T>, pc: T): nat {
    if pcs == [] then 0 else (if pcs[0] == pc then 1 else 0) + Count(pcs[1..], pc)
  }

  /** The scheduler may let notify_one wake thread `choice`: any sleeper, and some sleeper if there is one. */
  predicate CanWake<T(==)>(pcs: seq<T>, asleep: T, choice: nat) {
    asleep in pcs ==> choice < |pcs| && pcs[choice] == asleep
  }

  function WakeOne<T(==)>(pcs: seq<T>, asleep: T, woken: T, choice: nat): seq<T> {
    if choice < |pcs| && pcs[choice] == asleep then pcs[choice := woken] else pcs
  }

  function WakeAll<T(==)>(pcs: seq<T>, asleep: T, woken: T): seq<T> {
    seq(|pcs|, i requires 0 <= i < |pcs| => if pcs[i] == asleep then woken else pcs[i])
  }

  lemma SomeChoice<T>(pcs: seq<T>, asleep: T) returns (choice: nat)
    ensures CanWake(pcs, asleep, choice)
  {
    choice := 0;
    if asleep in pcs {
      choice :| choice < |pcs| && pcs[choice] == asleep;
    }
  }

  lemma {:induction false} CountMember<T>(pcs: seq<T>, pc: T)
    ensures Count(pcs, pc) > 0 <==> pc in pcs
  {
    if pcs != [] {
      CountMember(pcs[1..], pc);
    }
  }

  /** One thread moves to another program counter. */
  lemma {:induction false} Move<T>(pcs: seq<T>, i: nat, to: T)
    requires i < |pcs|
    ensures forall pc :: (Count(pcs[i := to], pc)
      == Count(pcs, pc) - (if pc == pcs[i] then 1 else 0) + (if pc == to then 1 else 0))
  {
    if i == 0 {
      assert pcs[i := to][1..] == pcs[1..];
    } else {
      assert pcs[i := to][1..] == pcs[1..][i - 1 := to];
      Move(pcs[1..], i - 1, to);
    }
  }

  lemma WakeOneCount<T>(pcs: seq<T>, asleep: T, woken: T, choice: nat)
    requires asleep != woken && CanWake(pcs, asleep, choice)
    ensures forall pc :: (Count(WakeOne(pcs, asleep, woken, choice), pc)
      == if Count(pcs, asleep) == 0 then Count(pcs, pc)
         else Count(pcs, pc) - (if pc == asleep then 1 else 0) + (if pc == woken then 1 else 0))
  {
    CountMember(pcs, asleep);
    if asleep in pcs {
      Move(pcs, choice, woken);
    }
  }

  lemma {:induction false} WakeAllCount<T>(pcs: seq<T>, asleep: T, woken: T)
    requires asleep != woken
    ensures forall pc :: (Count(WakeAll(pcs, asleep, woken), pc)
      == if pc == asleep then 0
         else Count(pcs, pc) + (if pc == woken then Count(pcs, asleep) else 0))
  {
    var all := WakeAll(pcs, asleep, woken);
    if pcs != [] {
      WakeAllCount(pcs[1..], asleep, woken);
      assert all[1..] == WakeAll(pcs[1..], asleep, woken);
    }
  }
}
