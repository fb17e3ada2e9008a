/** Taking two run-queue locks at once: any number of threads, each in double_rq_lock, double_rq_unlock or
    one of the variants of _double_lock_balance.

    A lock is named by its address.  A step takes or releases locks at one point of one thread.
  */
module LockOrder {
  import opened Kernel

  /** Where a thread is, and with it which locks it holds. */
  datatype Thread =
    | Out                              // holds nothing
    | WaitOne(a: nat)                  // spins on a, holds nothing
    | One(a: nat)                      // holds a
    | WaitFirst(lo: nat, hi: nat)      // spins on lo, holds nothing, will then take hi
    | WaitSecond(lo: nat, hi: nat)     // spins on hi, holds lo
    | Both(a: nat, b: nat)             // holds a and b

  type State = seq<Thread>

  datatype Op =
    | LockOne(a: nat)                  // raw_spin_lock
    | DoubleLock(a: nat, b: nat)       // double_rq_lock
    | Acquire                          // the lock the thread spins on
    | UnlockFirst                      // double_rq_unlock as far as its first lock, of two or one
    | UnlockSecond                     // double_unlock_balance
    | BalanceFair(b: nat)              // _double_lock_balance, CONFIG_PREEMPT
    | BalanceUnfair(b: nat)            // _double_lock_balance, otherwise

  function Held(t: Thread): set<nat> {
    match t
    case Out => {}
    case WaitOne(a) => {}
    case One(a) => {a}
    case WaitFirst(lo, hi) => {}
    case WaitSecond(lo, hi) => {lo}
    case Both(a, b) => {a, b}
  }

  /** The lock a thread spins on. */
  function Wants(t: Thread): Option<nat> {
    match t
    case WaitOne(a) => Some(a)
    case WaitFirst(lo, hi) => Some(lo)
    case WaitSecond(lo, hi) => Some(hi)
    case _ => None
  }

  predicate Free(s: State, l: nat) {
    forall i :: 0 <= i < |s| ==> l !in Held(s[i])
  }

  /** double_rq_lock, up to its first raw_spin_lock. */
  function Double(a: nat, b: nat): Thread {
    if a == b then WaitOne(a) else if a < b then WaitFirst(a, b) else WaitFirst(b, a)
  }

  predicate CanStep(s: State, i: nat, op: Op)
    requires i < |s|
  {
    match op
    case LockOne(a) => s[i].Out?
    case DoubleLock(a, b) => s[i].Out?
    case Acquire => Wants(s[i]).Some? && Free(s, Wants(s[i]).value)
    case UnlockFirst => s[i].One? || s[i].Both?
    case UnlockSecond => s[i].Both?
    case BalanceFair(b) => s[i].One? && s[i].a != b
    case BalanceUnfair(b) => s[i].One? && s[i].a != b
  }

  function Next(s: State, i: nat, op: Op): Thread
    requires i < |s| && CanStep(s, i, op)
  {
    match op
    case LockOne(a) => WaitOne(a)
    case DoubleLock(a, b) => Double(a, b)
    case Acquire =>
      (match s[i]
       case WaitOne(a) => One(a)
       case WaitFirst(lo, hi) => WaitSecond(lo, hi)
       case WaitSecond(lo, hi) => Both(lo, hi))
    case UnlockFirst => if s[i].One? then Out else One(s[i].b)
    case UnlockSecond => One(s[i].a)
    case BalanceFair(b) => Double(s[i].a, b)
    case BalanceUnfair(b) =>
      var a := s[i].a;
      if Free(s, b) then Both(a, b)              // raw_spin_trylock
      else if b < a then WaitFirst(b, a)
      else WaitSecond(a, b)
  }

  function Step(s: State, i: nat, op: Op): State
    requires i < |s| && CanStep(s, i, op)
  {
    s[i := Next(s, i, op)]
  }

  // ---------------------------------------------------------------- what every step keeps

  /** A thread spins on a lock above all it holds, and never asks for one it has. */
  ghost predicate Ordered(t: Thread) {
    && (Wants(t).Some? ==> forall h :: h in Held(t) ==> h < Wants(t).value)
    && (t.WaitFirst? ==> t.lo < t.hi) && (t.Both? ==> t.a != t.b)
  }

  ghost predicate Inv(s: State) {
    && (forall i :: 0 <= i < |s| ==> Ordered(s[i]))
    && (forall i, j :: 0 <= i < j < |s| ==> Held(s[i]) !! Held(s[j]))
  }

  lemma {:induction false} StepKeeps(s: State, i: nat, op: Op)
    requires Inv(s) && i < |s| && CanStep(s, i, op)
    ensures Inv(Step(s, i, op))
  {
    var t := Next(s, i, op);
    forall j | 0 <= j < |s| && j != i ensures Held(t) !! Held(s[j]) {
      assert Held(s[i]) !! Held(s[j]);
    }
  }

  ghost predicate IsRun(s: State, es: seq<(nat, Op)>)
    decreases |es|
  {
    es == [] || (es[0].0 < |s| && CanStep(s, es[0].0, es[0].1) && IsRun(Step(s, es[0].0, es[0].1), es[1..]))
  }

  ghost function End(s: State, es: seq<(nat, Op)>): State
    requires IsRun(s, es)
    decreases |es|
  {
    if es == [] then s else End(Step(s, es[0].0, es[0].1), es[1..])
  }

  lemma {:induction false} RunKeeps(s: State, es: seq<(nat, Op)>)
    requires Inv(s) && IsRun(s, es)
    ensures Inv(End(s, es))
    decreases |es|
  {
    if es != [] {
      hide Inv;
      hide Step;
      StepKeeps(s, es[0].0, es[0].1);
      RunKeeps(Step(s, es[0].0, es[0].1), es[1..]);
    }
  }

  // ---------------------------------------------------------------- no deadlock

  ghost predicate WaitsFor(s: State, i: nat, j: nat)
    requires i < |s| && j < |s|
  {
    Wants(s[i]).Some? && Wants(s[i]).value in Held(s[j])
  }

  /** Each of the threads waits for a lock of the next one, and the last for one of the first. */
  ghost predicate Cycle(s: State, c: seq<nat>) {
    && c != [] && (forall k :: 0 <= k < |c| ==> c[k] < |s|)
    && (forall k :: 0 <= k < |c| - 1 ==> WaitsFor(s, c[k], c[k + 1]))
    && WaitsFor(s, c[|c| - 1], c[0])
  }

  /** Who waits wants something smaller than the one it waits for, if that one waits too. */
  lemma WantsGrow(s: State, i: nat, j: nat)
    requires Inv(s) && i < |s| && j < |s| && WaitsFor(s, i, j) && Wants(s[j]).Some?
    ensures Wants(s[i]).value < Wants(s[j]).value
  {
    assert Ordered(s[j]);
  }

  lemma {:induction false} Climb(s: State, c: seq<nat>, k: nat)
    requires Inv(s) && Cycle(s, c) && k < |c|
    ensures Wants(s[c[0]]).Some? && Wants(s[c[k]]).Some? && Wants(s[c[0]]).value <= Wants(s[c[k]]).value
  {
    var last := |c| - 1;
    assert 0 < last ==> WaitsFor(s, c[0], c[1]);
    assert k < last ==> WaitsFor(s, c[k], c[k + 1]);
    if k > 0 {
      Climb(s, c, k - 1);
      assert WaitsFor(s, c[k - 1], c[k - 1 + 1]);
      WantsGrow(s, c[k - 1], c[k]);
    }
  }

  /** However many threads run whatever mixture of the four operations, they never wait for one another in a
      circle. */
  lemma {:induction false} NoCycle(n: nat, es: seq<(nat, Op)>, c: seq<nat>)
    requires IsRun(seq(n, i => Out), es)
    ensures !Cycle(End(seq(n, i => Out), es), c)
  {
    var s := End(seq(n, i => Out), es);
    RunKeeps(seq(n, i => Out), es);
    if Cycle(s, c) {
      Climb(s, c, |c| - 1);
      WantsGrow(s, c[|c| - 1], c[0]);
    }
  }

  lemma Owner(s: State, l: nat) returns (i: nat)
    requires !Free(s, l)
    ensures i < |s| && l in Held(s[i])
  {
    i :| 0 <= i < |s| && l in Held(s[i]);
  }

  /** Whoever wants the largest of the wanted locks up to `from` waits for nobody who waits. */
  lemma {:induction false} MostWanted(s: State, from: nat) returns (i: nat)
    requires from <= |s| && exists j :: 0 <= j < from && Wants(s[j]).Some?
    ensures i < from && Wants(s[i]).Some?
    ensures forall j :: 0 <= j < from && Wants(s[j]).Some? ==> Wants(s[j]).value <= Wants(s[i]).value
  {
    i := from - 1;
    if exists j :: 0 <= j < from - 1 && Wants(s[j]).Some? {
      var k := MostWanted(s, from - 1);
      if Wants(s[i]).None? || Wants(s[i]).value <= Wants(s[k]).value {
        i := k;
      }
    }
  }

  /** As long as a thread is inside, some thread can take the lock it spins on, or give one back. */
  lemma SomebodyMoves(s: State)
    requires Inv(s) && exists i :: 0 <= i < |s| && !s[i].Out?
    ensures exists i :: 0 <= i < |s| && (CanStep(s, i, Acquire) || CanStep(s, i, UnlockFirst))
  {
    if exists j :: 0 <= j < |s| && Wants(s[j]).Some? {
      var i := MostWanted(s, |s|);
      if !CanStep(s, i, Acquire) {
        var o := Owner(s, Wants(s[i]).value);
        assert Ordered(s[o]);
        assert Wants(s[o]).None?;
        assert CanStep(s, o, UnlockFirst);
      }
    } else {
      var i :| 0 <= i < |s| && !s[i].Out?;
      assert Wants(s[i]).None?;
      assert CanStep(s, i, UnlockFirst);
    }
  }

  // ---------------------------------------------------------------- both locks in the end

  /** The locks a thread has or is on its way to. */
  ghost function Aims(t: Thread): set<nat> {
    match t
    case Out => {}
    case WaitOne(a) => {a}
    case One(a) => {a}
    case WaitFirst(lo, hi) => {lo, hi}
    case WaitSecond(lo, hi) => {lo, hi}
    case Both(a, b) => {a, b}
  }

  lemma {:induction false} AimsStay(s: State, es: seq<(nat, Op)>, i: nat)
    requires IsRun(s, es) && i < |s| && forall e <- es :: e.0 == i ==> e.1 == Acquire
    ensures |End(s, es)| == |s| && Aims(End(s, es)[i]) == Aims(s[i])
    decreases |es|
  {
    if es != [] {
      var r := Step(s, es[0].0, es[0].1);
      assert es[0] in es && Aims(r[i]) == Aims(s[i]);
      assert forall e <- es[1..] :: e in es;
      AimsStay(r, es[1..], i);
    }
  }

  /** Whatever the others do meanwhile: a thread that asks for two locks, in whichever order it names them and
      through whichever of the operations, holds exactly those once it spins no more. */
  lemma {:induction false} LockedBoth(s: State, i: nat, op: Op, es: seq<(nat, Op)>)
    requires i < |s| && CanStep(s, i, op) && IsRun(Step(s, i, op), es)
    requires op.DoubleLock? || op.BalanceFair? || op.BalanceUnfair?
    requires forall e <- es :: e.0 == i ==> e.1 == Acquire
    ensures var r := End(Step(s, i, op), es);
            |r| == |s| && (Wants(r[i]).None? ==> Held(r[i]) == if op.DoubleLock? then {op.a, op.b} else {s[i].a, op.b})
  {
    AimsStay(Step(s, i, op), es, i);
  }

  /** Giving back takes the held lock away that is asked for, and no other. */
  lemma Unlocked(s: State, i: nat)
    requires i < |s| && s[i].Both? && s[i].a != s[i].b
    ensures Held(Step(s, i, UnlockFirst)[i]) == {s[i].b} && Held(Step(s, i, UnlockSecond)[i]) == {s[i].a}
    ensures CanStep(Step(s, i, UnlockFirst), i, UnlockFirst)
    ensures Held(Step(Step(s, i, UnlockFirst), i, UnlockFirst)[i]) == {}
  {
  }

  /** A lock has one holder at a time. */
  lemma Exclusive(n: nat, es: seq<(nat, Op)>, i: nat, j: nat)
    requires IsRun(seq(n, k => Out), es) && i < j < |End(seq(n, k => Out), es)|
    ensures Held(End(seq(n, k => Out), es)[i]) !! Held(End(seq(n, k => Out), es)[j])
  {
    RunKeeps(seq(n, k => Out), es);
  }
}
