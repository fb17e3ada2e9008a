/** The weighted round-robin class: one queue of tasks, each with a time slice of the length of its kind. */
module WrrQueue {
  import opened Lists

  /** struct task_struct, as far as this class is concerned. */
  class Task {
    const foreground: bool     // its control group is not a background group
    var slice: nat             // wrr.time_slice

    constructor (foreground: bool)
      ensures this.foreground == foreground && slice == 0
    {
      this.foreground, slice := foreground, 0;
    }
  }

  /** WRRF_TIMESLICE and WRRB_TIMESLICE, in ticks. */
  function Full(hz: nat, t: Task): nat {
    if t.foreground then 100 * hz / 1000 else 10 * hz / 1000
  }

  /** --time_slice, on an unsigned word. */
  function Decrement(slice: nat): nat {
    if slice == 0 then 0xFFFF_FFFF else slice - 1
  }

  datatype State = State(
    queue: seq<Task>,          // wrr.queue_wrr
    slice: map<Task, nat>,
    nr: int,                   // wrr.wrr_nr_running
    curr: Task?,               // the running task, when it is one of this class
    resched: bool)

  // ---------------------------------------------------------------- the operations

  function Without(s: State, t: Task): State {
    if t in s.queue then s.(queue := Remove(s.queue, t), nr := s.nr - 1) else s
  }

  /** enqueue_wrr_entity: a task that is put on the queue gets a full slice. */
  function Enqueued(s: State, t: Task, head: bool, hz: nat): State {
    var r := Without(s, t);
    r.(queue := if head then [t] + r.queue else r.queue + [t], slice := s.slice[t := Full(hz, t)], nr := r.nr + 1)
  }

  /** requeue_wrr_entity. */
  function Requeued(s: State, t: Task, head: bool): State {
    if t !in s.queue then s
    else
      var q := Remove(s.queue, t);
      s.(queue := if head then [t] + q else q + [t])
  }

  /** task_tick_wrr. */
  function Ticked(s: State, t: Task, hz: nat): State
    requires t in s.slice
  {
    var left := Decrement(s.slice[t]);
    if left != 0 then s.(slice := s.slice[t := left])
    else
      var r := s.(slice := s.slice[t := Full(hz, t)]);
      if t in s.queue && |s.queue| > 1 then Requeued(r, t, false).(resched := true) else r
  }

  /** schedule: _pick_next_task_wrr takes the head of the queue. */
  function Scheduled(s: State): State {
    s.(curr := if s.nr == 0 || s.queue == [] then null else s.queue[0], resched := false)
  }

  /** A timer tick, and the rescheduling it may ask for. */
  function Beat(s: State, hz: nat): State
    requires s.curr != null && s.curr in s.slice
  {
    var r := Ticked(s, s.curr, hz);
    if r.resched then Scheduled(r) else r
  }

  // ---------------------------------------------------------------- what they keep

  /** Every queued task has between one tick and its whole slice left, and a queued task runs. */
  ghost predicate Inv(s: State, hz: nat) {
    && NoDup(s.queue) && s.nr == |s.queue| && !s.resched
    && (forall t :: t in s.queue ==> t in s.slice && 1 <= s.slice[t] <= Full(hz, t))
    && if s.queue == [] then s.curr == null else s.curr in s.queue
  }

  /** Moreover the task that runs is the head of the queue. */
  ghost predicate Settled(s: State, hz: nat) {
    Inv(s, hz) && (s.queue != [] ==> s.curr == s.queue[0])
  }

  /** A tenth of a second for a foreground task, a hundredth for a background one, rounded down to ticks. */
  lemma SliceLength(hz: nat, t: Task)
    ensures Full(hz, t) == if t.foreground then hz / 10 else hz / 100
  {
  }

  lemma FullInRange(hz: nat, t: Task)
    requires hz >= 100
    ensures 1 <= Full(hz, t) <= 100 * hz / 1000
  {
  }

  lemma MovedToTail(q: seq<Task>, t: Task)
    requires NoDup(q) && t in q
    ensures var r := Remove(q, t) + [t]; NoDup(r) && |r| == |q| && forall x :: x in r <==> x in q
  {
    RemoveSpec(q, t);
    var r := Remove(q, t) + [t];
    assert r[|r| - 1] == t;
    forall x | x in r ensures x in q {}
    forall x | x in q ensures x in r {
      assert x == t || x in Remove(q, t);
    }
  }

  datatype Event =
    | Tick
    | Join(t: Task, head: bool)   // a task wakes up, or is taken off and put back with new settings
    | Leave(t: Task)              // a task goes to sleep, or away
    | Yield
    | Resched                     // schedule runs, for whatever reason

  /** Neither a wake-up nor new settings ask for a reschedule; an idle CPU reschedules anyway. */
  function Next(s: State, e: Event, hz: nat): State {
    match e
    case Tick => if s.curr == null || s.curr !in s.slice then s else Beat(s, hz)
    case Join(t, head) =>
      var r := Enqueued(s, t, head, hz);
      if s.curr == null then Scheduled(r) else r
    case Leave(t) => if t == s.curr then Scheduled(Without(s, t)) else Without(s, t)
    case Yield => if s.curr == null then s else Scheduled(Requeued(s, s.curr, false))
    case Resched => Scheduled(s)
  }

  /** Only a task that is queued can be put back, and so go to the head. */
  ghost predicate Possible(s: State, e: Event) {
    e.Join? && e.head ==> e.t in s.queue
  }

  lemma TickKeeps(s: State, hz: nat)
    requires hz >= 100 && Inv(s, hz)
    ensures Inv(Next(s, Tick, hz), hz)
  {
    if s.curr != null {
      var x: Task := s.curr;
      assert x in s.queue;
      FullInRange(hz, x);
      MovedToTail(s.queue, x);
      var q := Remove(s.queue, x) + [x];
      RemoveSpec(s.queue, x);
      assert Next(s, Tick, hz).queue == q || Next(s, Tick, hz).queue == s.queue;
      forall t | t in q ensures t in s.queue {}
    }
  }

  lemma JoinKeeps(s: State, t: Task, head: bool, hz: nat)
    requires hz >= 100 && Inv(s, hz)
    ensures Inv(Next(s, Join(t, head), hz), hz)
  {
    FullInRange(hz, t);
    if t in s.queue {
      RemoveSpec(s.queue, t);
      MovedToTail(s.queue, t);
    }
  }

  lemma YieldKeeps(s: State, hz: nat)
    requires Inv(s, hz)
    ensures Inv(Next(s, Yield, hz), hz)
  {
    if s.curr != null {
      var x: Task := s.curr;
      assert x in s.queue;
      MovedToTail(s.queue, x);
      var q := Remove(s.queue, x) + [x];
      RemoveSpec(s.queue, x);
      assert Next(s, Yield, hz).queue == q;
      forall t | t in q ensures t in s.queue {}
    }
  }

  lemma NextKeeps(s: State, e: Event, hz: nat)
    requires hz >= 100 && Inv(s, hz)
    ensures Inv(Next(s, e, hz), hz)
  {
    match e {
      case Tick => TickKeeps(s, hz);
      case Join(t, head) => JoinKeeps(s, t, head, hz);
      case Leave(t) =>
        if t in s.queue {
          RemoveSpec(s.queue, t);
        }
      case Yield => YieldKeeps(s, hz);
      case Resched =>
    }
  }

  /** The running task goes behind another one, or another one before it. */
  ghost predicate Overtakes(s: State, e: Event) {
    e.Join? && |s.queue| > 1 && (e.t == s.curr <==> !e.head)
  }

  /** The head goes on running unless that happens. */
  lemma SettledKeeps(s: State, e: Event, hz: nat)
    requires hz >= 100 && Settled(s, hz) && Possible(s, e)
    ensures Settled(Next(s, e, hz), hz) <==> !Overtakes(s, e)
  {
    NextKeeps(s, e, hz);
    if e.Join? && e.t in s.queue {
      RemoveSpec(s.queue, e.t);
    } else if e.Leave? && e.t in s.queue {
      RemoveSpec(s.queue, e.t);
    }
  }

  // ---------------------------------------------------------------- slow clocks

  /** Below 100 ticks a second a background slice rounds to nothing.  The wake-up of a background task keeps the
      invariant iff the clock is not that slow. */
  lemma SlowClock(s: State, t: Task, hz: nat)
    requires Inv(s, hz) && !t.foreground
    ensures Inv(Next(s, Join(t, false), hz), hz) <==> hz >= 100
  {
    if hz >= 100 {
      NextKeeps(s, Join(t, false), hz);
    } else {
      var r := Next(s, Join(t, false), hz);
      assert r.queue[|r.queue| - 1] == t && t in r.queue && r.slice[t] == 0;
    }
  }

  /** The first tick of such a task takes one from nothing, and its turn then lasts 2^32 ticks, whoever waits. */
  lemma {:induction false} EndlessTurn(s: State, hz: nat, n: nat)
    requires s.queue != [] && s.nr > 0 && s.curr == s.queue[0] && !s.resched
    requires s.curr in s.slice && s.slice[s.curr] == 0 && 0 < n < 0x1_0000_0000
    ensures Beats(s, hz, n) == s.(slice := s.slice[s.curr := 0x1_0000_0000 - n])
    ensures Charge(s, hz, n, s.curr) == n
  {
    if n > 1 {
      EndlessTurn(s, hz, n - 1);
    } else {
      assert Beats(s, hz, 0) == s && Charge(s, hz, 0, s.curr) == 0;
    }
  }

  /** On an idle queue this is what a background task's wake-up leads to. */
  lemma {:induction false} EndlessAfterWakeUp(s: State, t: Task, hz: nat, n: nat)
    requires Inv(s, hz) && s.queue == [] && !t.foreground && hz < 100 && 0 < n < 0x1_0000_0000
    ensures var r := Next(s, Join(t, false), hz); Beats(r, hz, n).curr == t && Charge(r, hz, n, t) == n
  {
    EndlessTurn(Next(s, Join(t, false), hz), hz, n);
  }

  // ---------------------------------------------------------------- waiting

  ghost function Left(slice: map<Task, nat>, x: Task): nat {
    if x in slice then slice[x] else 0
  }

  /** What the tasks ahead of t have left. */
  ghost function Before(q: seq<Task>, slice: map<Task, nat>, t: Task): nat {
    if q == [] || q[0] == t then 0 else Left(slice, q[0]) + Before(q[1..], slice, t)
  }

  ghost predicate AheadOf(q: seq<Task>, x: Task, t: Task) {
    q != [] && q[0] != t && (q[0] == x || AheadOf(q[1..], x, t))
  }

  lemma {:induction false} BeforeRemove(q: seq<Task>, slice: map<Task, nat>, t: Task, x: Task)
    requires x != t && NoDup(q)
    ensures Before(q, slice, t) == Before(Remove(q, x), slice, t) + if AheadOf(q, x, t) then Left(slice, x) else 0
    ensures forall y :: y != x ==> AheadOf(Remove(q, x), y, t) == AheadOf(q, y, t)
    ensures !AheadOf(Remove(q, x), x, t)
  {
    if q != [] {
      assert forall y :: y in q[1..] ==> y != q[0];
      if q[0] == x {
        NotAhead(q[1..], x, t);
      } else {
        assert Remove(q, x)[1..] == Remove(q[1..], x);
        BeforeRemove(q[1..], slice, t, x);
      }
    }
  }

  lemma {:induction false} NotAhead(q: seq<Task>, x: Task, t: Task)
    requires x !in q
    ensures !AheadOf(q, x, t)
  {
    if q != [] {
      NotAhead(q[1..], x, t);
    }
  }

  lemma {:induction false} BeforeAppend(q: seq<Task>, slice: map<Task, nat>, t: Task, x: Task)
    requires t in q
    ensures Before(q + [x], slice, t) == Before(q, slice, t)
    ensures forall y :: AheadOf(q + [x], y, t) == AheadOf(q, y, t)
  {
    if q[0] != t {
      assert (q + [x])[1..] == q[1..] + [x];
      BeforeAppend(q[1..], slice, t, x);
    }
  }

  lemma {:induction false} BeforeFrame(q: seq<Task>, slice: map<Task, nat>, t: Task, x: Task, v: nat)
    requires NoDup(q)
    ensures Before(q, slice[x := v], t) + (if AheadOf(q, x, t) then Left(slice, x) else 0)
         == Before(q, slice, t) + (if AheadOf(q, x, t) then v else 0)
  {
    if q != [] && q[0] != t {
      assert forall y :: y in q[1..] ==> y != q[0];
      BeforeFrame(q[1..], slice, t, x, v);
      if q[0] == x {
        NotAhead(q[1..], x, t);
      }
    }
  }

  /** What the wait for t counts of task x: all it has left, when x runs or is ahead of t. */
  ghost function Counted(s: State, x: Task, t: Task): nat {
    if x == s.curr || AheadOf(s.queue, x, t) then Left(s.slice, x) else 0
  }

  /** The ticks that pass before t runs, if nothing else happens: what the running task and those ahead of t
      have left. */
  ghost function Wait(s: State, t: Task): nat {
    if s.curr == t || s.curr == null then 0
    else Before(s.queue, s.slice, t) + if AheadOf(s.queue, s.curr, t) then 0 else Left(s.slice, s.curr)
  }

  lemma {:induction false} AheadLeft(q: seq<Task>, slice: map<Task, nat>, x: Task, t: Task)
    requires AheadOf(q, x, t)
    ensures x in q && x != t && Left(slice, x) <= Before(q, slice, t)
  {
    if q[0] != x {
      AheadLeft(q[1..], slice, x, t);
    }
  }

  /** t waits as long as it does not run. */
  lemma WaitingOrRunning(s: State, t: Task, hz: nat)
    requires Inv(s, hz) && t in s.queue
    ensures Wait(s, t) == 0 <==> s.curr == t
  {
    if s.curr != t && AheadOf(s.queue, s.curr, t) {
      AheadLeft(s.queue, s.slice, s.curr, t);
    }
  }

  /** What t's waiting assumes: it stays queued, and neither yields nor is put back itself. */
  ghost predicate Stays(s: State, e: Event, t: Task) {
    match e
    case Tick => true
    case Join(x, head) => x != t
    case Leave(x) => x != t
    case Yield => s.curr != t
    case Resched => true
  }

  /** What an event takes off the wait for t ... */
  ghost function Gone(s: State, e: Event, t: Task): nat
    requires s.curr != null
  {
    match e
    case Tick => 1
    case Join(x, head) => Counted(s, x, t)
    case Leave(x) => Counted(s, x, t)
    case Yield => Left(s.slice, s.curr)
    case Resched => if AheadOf(s.queue, s.curr, t) then 0 else Left(s.slice, s.curr)
  }

  /** ... and what it adds to it. */
  ghost function Added(s: State, e: Event, hz: nat): nat {
    if e.Join? && (e.head || e.t == s.curr) then Full(hz, e.t) else 0
  }

  /** When the head is picked, only those ahead of t count. */
  lemma ScheduledWait(s: State, t: Task)
    requires t in s.queue && s.nr == |s.queue|
    ensures Wait(Scheduled(s), t) == Before(s.queue, s.slice, t)
  {
  }

  lemma Whole(s: State, x: Task, t: Task, hz: nat)
    requires Inv(s, hz) && t in s.queue && s.curr != t
    ensures Counted(s, x, t) <= Wait(s, t) && Counted(s, x, t) <= Full(hz, x)
  {
    if AheadOf(s.queue, x, t) {
      AheadLeft(s.queue, s.slice, x, t);
    }
  }

  lemma TickWait(s: State, t: Task, hz: nat)
    requires hz >= 100 && Inv(s, hz) && t in s.queue && s.curr != t
    ensures Wait(Next(s, Tick, hz), t) == Wait(s, t) - 1
    ensures t in Next(s, Tick, hz).queue
  {
    var x: Task := s.curr;
    var q := s.queue;
    if s.slice[x] > 1 {
      BeforeFrame(q, s.slice, t, x, s.slice[x] - 1);
    } else {
      assert x in q && t in q && |q| > 1;
      RemoveSpec(q, x);
      BeforeRemove(q, s.slice, t, x);
      BeforeFrame(Remove(q, x), s.slice, t, x, Full(hz, x));
      BeforeAppend(Remove(q, x), s.slice[x := Full(hz, x)], t, x);
      ScheduledWait(Ticked(s, x, hz), t);
    }
  }

  /** Off the queue, with the slice it gets when it is put back. */
  lemma OffWait(s: State, x: Task, v: nat, t: Task, hz: nat)
    requires Inv(s, hz) && t in s.queue && x != t
    ensures var q, slice := Without(s, x).queue, s.slice[x := v];
            && t in q && !AheadOf(q, x, t) && NoDup(q)
            && Before(s.queue, s.slice, t)
            == Before(q, slice, t) + (if AheadOf(s.queue, x, t) then Left(s.slice, x) else 0)
            && forall y :: y != x ==> AheadOf(q, y, t) == AheadOf(s.queue, y, t)
  {
    if x in s.queue {
      RemoveSpec(s.queue, x);
      BeforeRemove(s.queue, s.slice, t, x);
    } else {
      NotAhead(s.queue, x, t);
    }
    BeforeFrame(Without(s, x).queue, s.slice, t, x, v);
  }

  lemma JoinWait(s: State, x: Task, head: bool, t: Task, hz: nat)
    requires Inv(s, hz) && t in s.queue && s.curr != t && x != t
    ensures var e := Join(x, head); Wait(Next(s, e, hz), t) == Wait(s, t) - Gone(s, e, t) + Added(s, e, hz)
    ensures t in Next(s, Join(x, head), hz).queue
  {
    var q, slice := Without(s, x).queue, s.slice[x := Full(hz, x)];
    OffWait(s, x, Full(hz, x), t, hz);
    BeforeAppend(q, slice, t, x);
    assert ([x] + q)[1..] == q;
    hide NoDup;
    hide Full;
    var r := Next(s, Join(x, head), hz);
    assert r.queue == (if head then [x] + q else q + [x]) && r.slice == slice && r.curr == s.curr;
    assert Before(r.queue, r.slice, t) == Before(q, slice, t) + if head then Full(hz, x) else 0;
    assert AheadOf(r.queue, x, t) == head;
    assert forall y :: y != x ==> AheadOf(r.queue, y, t) == AheadOf(s.queue, y, t);
    hide Next;
    hide Before;
    hide AheadOf;
  }

  lemma LeaveWait(s: State, x: Task, t: Task, hz: nat)
    requires Inv(s, hz) && t in s.queue && s.curr != t && x != t
    ensures Wait(Next(s, Leave(x), hz), t) == Wait(s, t) - Counted(s, x, t)
    ensures t in Next(s, Leave(x), hz).queue
  {
    if x in s.queue {
      RemoveSpec(s.queue, x);
      BeforeRemove(s.queue, s.slice, t, x);
      ScheduledWait(Without(s, x), t);
    } else {
      NotAhead(s.queue, x, t);
    }
  }

  lemma YieldWait(s: State, t: Task, hz: nat)
    requires Inv(s, hz) && t in s.queue && s.curr != t
    ensures Wait(Next(s, Yield, hz), t) == Wait(s, t) - Left(s.slice, s.curr)
    ensures t in Next(s, Yield, hz).queue
  {
    var x: Task := s.curr;
    RemoveSpec(s.queue, x);
    BeforeRemove(s.queue, s.slice, t, x);
    BeforeAppend(Remove(s.queue, x), s.slice, t, x);
    ScheduledWait(Requeued(s, x, false), t);
  }

  /** How every event changes the wait for a task that waits. */
  lemma NextWait(s: State, e: Event, t: Task, hz: nat)
    requires hz >= 100 && Inv(s, hz) && Stays(s, e, t) && t in s.queue && s.curr != t
    ensures t in Next(s, e, hz).queue
    ensures Wait(Next(s, e, hz), t) == Wait(s, t) - Gone(s, e, t) + Added(s, e, hz)
  {
    match e {
      case Tick => TickWait(s, t, hz);
      case Join(x, head) => JoinWait(s, x, head, t, hz);
      case Leave(x) => LeaveWait(s, x, t, hz);
      case Yield => YieldWait(s, t, hz);
      case Resched => ScheduledWait(s, t);
    }
  }

  /** The running task is put back with part of its slice used, or another one goes to the head that was not
      ahead of t with its whole slice. */
  ghost predicate PushesBack(s: State, e: Event, t: Task, hz: nat) {
    e.Join? && (e.head || e.t == s.curr) && Counted(s, e.t, t) < Full(hz, e.t)
  }

  ghost function Pushed(s: State, e: Event, t: Task, hz: nat): nat {
    if PushesBack(s, e, t, hz) then Full(hz, e.t) - Counted(s, e.t, t) else 0
  }

  /** Exactly these events make a waiting task wait longer; all others do not, and a tick brings it nearer. */
  lemma NextApproaches(s: State, e: Event, t: Task, hz: nat)
    requires hz >= 100 && Inv(s, hz) && Stays(s, e, t) && t in s.queue && s.curr != t
    ensures t in Next(s, e, hz).queue
    ensures Wait(Next(s, e, hz), t) > Wait(s, t) <==> PushesBack(s, e, t, hz)
    ensures Wait(Next(s, e, hz), t) + (if e.Tick? then 1 else 0) <= Wait(s, t) + Pushed(s, e, t, hz)
  {
    if e.Join? {
      Whole(s, e.t, t, hz);
    }
    hide Next;
    hide Wait;
    hide Counted;
    NextWait(s, e, t, hz);
  }

  /** A run of the queue, as far as t stays. */
  ghost predicate IsRun(s: State, es: seq<Event>, t: Task, hz: nat)
    decreases |es|
  {
    es == [] || (Possible(s, es[0]) && Stays(s, es[0], t) && IsRun(Next(s, es[0], hz), es[1..], t, hz))
  }

  ghost function Ticks(es: seq<Event>): nat {
    if es == [] then 0 else (if es[0].Tick? then 1 else 0) + Ticks(es[1..])
  }

  /** All that a run adds to the wait for t. */
  ghost function PushedAlong(s: State, es: seq<Event>, t: Task, hz: nat): nat
    decreases |es|
  {
    if es == [] then 0 else Pushed(s, es[0], t, hz) + PushedAlong(Next(s, es[0], hz), es[1..], t, hz)
  }

  /** At some moment of the run t runs. */
  ghost predicate GetsToRun(s: State, es: seq<Event>, t: Task, hz: nat)
    decreases |es|
  {
    s.curr == t || (es != [] && GetsToRun(Next(s, es[0], hz), es[1..], t, hz))
  }

  /** A queued task runs after at most as many ticks as the running task and those ahead of it have left,
      and as many more as it is pushed back by, whatever the others do. */
  lemma {:induction false} BoundedWaiting(s: State, es: seq<Event>, t: Task, hz: nat)
    requires hz >= 100 && Inv(s, hz) && t in s.queue && IsRun(s, es, t, hz)
    requires Ticks(es) >= Wait(s, t) + PushedAlong(s, es, t, hz)
    ensures GetsToRun(s, es, t, hz)
    decreases |es|
  {
    WaitingOrRunning(s, t, hz);
    if s.curr != t {
      hide Inv;
      hide Next;
      hide Wait;
      hide Pushed;
      NextKeeps(s, es[0], hz);
      NextApproaches(s, es[0], t, hz);
      BoundedWaiting(Next(s, es[0], hz), es[1..], t, hz);
    }
  }

  /** n ticks with nothing else going on. */
  ghost function Beats(s: State, hz: nat, n: nat): State {
    if n == 0 then s else Next(Beats(s, hz, n - 1), Tick, hz)
  }

  /** How many of them are charged to t. */
  ghost function Charge(s: State, hz: nat, n: nat, t: Task): nat {
    if n == 0 then 0 else Charge(s, hz, n - 1, t) + if Beats(s, hz, n - 1).curr == t then 1 else 0
  }

  /** When nothing but ticks happens, the wait is exact. */
  lemma {:induction false} ExactWait(s: State, t: Task, hz: nat, n: nat)
    requires hz >= 100 && Inv(s, hz) && t in s.queue && n <= Wait(s, t)
    ensures var r := Beats(s, hz, n);
            Inv(r, hz) && t in r.queue && Wait(r, t) == Wait(s, t) - n && (r.curr == t <==> n == Wait(s, t))
  {
    hide Inv;
    hide Next;
    hide Wait;
    if n > 0 {
      ExactWait(s, t, hz, n - 1);
      var u := Beats(s, hz, n - 1);
      TickKeeps(u, hz);
      TickWait(u, t, hz);
    }
    WaitingOrRunning(Beats(s, hz, n), t, hz);
  }

  ghost predicate RunsWithin(s: State, t: Task, hz: nat, n: nat) {
    exists k :: 0 <= k <= n && Beats(s, hz, k).curr == t
  }

  lemma WithinWait(s: State, t: Task, hz: nat, n: nat)
    requires hz >= 100 && Inv(s, hz) && t in s.queue
    ensures RunsWithin(s, t, hz, n) <==> Wait(s, t) <= n
  {
    hide Inv;
    hide Wait;
    hide Beats;
    ExactWait(s, t, hz, Wait(s, t));
    if RunsWithin(s, t, hz, n) && n < Wait(s, t) {
      var k :| 0 <= k <= n && Beats(s, hz, k).curr == t;
      ExactWait(s, t, hz, k);
    }
  }

  /** The bound that holds before an event holds after it, in ticks alone, iff the event does not push back. */
  lemma {:induction false} BoundLost(s: State, e: Event, t: Task, hz: nat)
    requires hz >= 100 && Inv(s, hz) && Stays(s, e, t) && t in s.queue && s.curr != t
    ensures RunsWithin(Next(s, e, hz), t, hz, Wait(s, t)) <==> !PushesBack(s, e, t, hz)
  {
    hide Inv;
    hide Next;
    hide Wait;
    hide RunsWithin;
    hide PushesBack;
    NextKeeps(s, e, hz);
    NextApproaches(s, e, t, hz);
    WithinWait(Next(s, e, hz), t, hz, Wait(s, t));
  }

  // ---------------------------------------------------------------- starvation

  /** The running task is put back at the tail before every tick. */
  ghost function Restarts(x: Task, n: nat): seq<Event> {
    if n == 0 then [] else [Join(x, false), Tick] + Restarts(x, n - 1)
  }

  lemma OneRestart(s: State, t: Task, hz: nat)
    requires hz >= 100 && Inv(s, hz) && t in s.queue && s.curr != t && Full(hz, s.curr) >= 2
    ensures var u := Next(s, Join(s.curr, false), hz);
            var r := Next(u, Tick, hz);
            && u.curr == r.curr == s.curr && Inv(r, hz) && t in r.queue
  {
    var u := Next(s, Join(s.curr, false), hz);
    JoinKeeps(s, s.curr, false, hz);
    JoinWait(s, s.curr, false, t, hz);
    TickKeeps(u, hz);
  }

  /** Then nobody else ever runs, for any number of ticks. */
  lemma {:induction false} Starved(s: State, t: Task, hz: nat, n: nat)
    requires hz >= 100 && Inv(s, hz) && t in s.queue && s.curr != t && Full(hz, s.curr) >= 2
    ensures var es := Restarts(s.curr, n);
            IsRun(s, es, t, hz) && Ticks(es) == n && !GetsToRun(s, es, t, hz)
    decreases n
  {
    if n > 0 {
      OneRestart(s, t, hz);
      var x := s.curr;
      var u := Next(s, Join(x, false), hz);
      hide Inv;
      hide Next;
      Starved(Next(u, Tick, hz), t, hz, n - 1);
      var es, rest := Restarts(x, n), Restarts(x, n - 1);
      assert es[0] == Join(x, false) && es[1..] == [Tick] + rest && es[1..][1..] == rest;
    }
  }

  // ---------------------------------------------------------------- fairness

  lemma {:induction false} BeatsAdd(s: State, hz: nat, m: nat, n: nat, t: Task)
    ensures Beats(s, hz, m + n) == Beats(Beats(s, hz, m), hz, n)
    ensures Charge(s, hz, m + n, t) == Charge(s, hz, m, t) + Charge(Beats(s, hz, m), hz, n, t)
  {
    hide Next;
    if n > 0 {
      assert m + n - 1 == m + (n - 1);
      BeatsAdd(s, hz, m, n - 1, t);
    }
  }

  lemma HeadTick(s: State, hz: nat, k: nat)
    requires Settled(s, hz) && s.queue != [] && k >= 2
    ensures var x := s.queue[0];
            Next(s.(slice := s.slice[x := k]), Tick, hz) == s.(slice := s.slice[x := k - 1])
  {
  }

  /** While its slice lasts, the head runs. */
  lemma {:induction false} HeadRuns(s: State, hz: nat, n: nat, t: Task)
    requires Settled(s, hz) && s.queue != [] && n < s.slice[s.queue[0]]
    ensures var x := s.queue[0];
            && Beats(s, hz, n) == s.(slice := s.slice[x := s.slice[x] - n])
            && Charge(s, hz, n, t) == if t == x then n else 0
  {
    var x := s.queue[0];
    if n > 0 {
      hide Next;
      HeadRuns(s, hz, n - 1, t);
      HeadTick(s, hz, s.slice[x] - (n - 1));
    } else {
      assert s.slice[x := s.slice[x]] == s.slice;
    }
  }

  ghost predicate Fresh(s: State, hz: nat) {
    forall t :: t in s.queue ==> t in s.slice && s.slice[t] == Full(hz, t)
  }

  /** The queue with its first i tasks moved to its end. */
  ghost function Rotated(s: State, i: nat): State
    requires i <= |s.queue| && s.queue != []
  {
    var q := s.queue[i..] + s.queue[..i];
    s.(queue := q, curr := q[0])
  }

  /** Then it goes to the tail, with a full slice again. */
  lemma Turn(s: State, hz: nat, t: Task)
    requires hz >= 100 && Settled(s, hz) && s.queue != [] && Fresh(s, hz)
    ensures var x := s.queue[0];
            && Beats(s, hz, Full(hz, x)) == Rotated(s, 1)
            && Charge(s, hz, Full(hz, x), t) == if t == x then Full(hz, x) else 0
  {
    var x := s.queue[0];
    var n := Full(hz, x) - 1;
    FullInRange(hz, x);
    HeadRuns(s, hz, n, t);
    LastTick(s, Beats(s, hz, n), hz);
  }

  lemma RemoveHead(q: seq<Task>)
    requires q != []
    ensures Remove(q, q[0]) == q[1..]
  {
  }

  lemma LastTick(s: State, r: State, hz: nat)
    requires hz >= 100 && Settled(s, hz) && s.queue != [] && Fresh(s, hz) && r == s.(slice := s.slice[s.queue[0] := 1])
    ensures Next(r, Tick, hz) == Rotated(s, 1) && r.curr == s.queue[0]
  {
    var x := s.queue[0];
    FullInRange(hz, x);
    RemoveHead(s.queue);
    assert s.queue[..1] == [x];
    assert r.slice[x := Full(hz, x)] == s.slice;
  }

  ghost function Sum(q: seq<Task>, hz: nat): nat {
    if q == [] then 0 else Sum(q[..|q| - 1], hz) + Full(hz, q[|q| - 1])
  }

  lemma RotatedAgain(s: State, i: nat)
    requires s.queue != [] && i < |s.queue|
    ensures Rotated(Rotated(s, i), 1) == Rotated(s, i + 1) && Rotated(s, i).queue[0] == s.queue[i]
  {
    var q := s.queue;
    assert (q[i..] + q[..i])[1..] == q[i + 1..] + q[..i];
    assert q[..i + 1] == q[..i] + [q[i]];
  }

  lemma RotatedFresh(s: State, i: nat, hz: nat)
    requires Settled(s, hz) && Fresh(s, hz) && s.queue != [] && i <= |s.queue|
    ensures Fresh(Rotated(s, i), hz)
  {
    forall t | t in Rotated(s, i).queue ensures t in s.queue {}
  }

  lemma RotatedSettled(s: State, i: nat, hz: nat)
    requires Settled(s, hz) && s.queue != [] && i <= |s.queue|
    ensures Settled(Rotated(s, i), hz) && Rotated(s, i).queue != []
  {
    forall t | t in Rotated(s, i).queue ensures t in s.queue {}
  }

  lemma FirstTasks(q: seq<Task>, i: nat, hz: nat)
    requires 0 < i <= |q|
    ensures Sum(q[..i], hz) == Sum(q[..i - 1], hz) + Full(hz, q[i - 1])
    ensures NoDup(q) ==> q[i - 1] !in q[..i - 1]
    ensures forall t :: t in q[..i] <==> t in q[..i - 1] || t == q[i - 1]
  {
    assert q[..i][..i - 1] == q[..i - 1] && q[..i] == q[..i - 1] + [q[i - 1]];
  }

  /** After the slices of the first i tasks, these have had them, and are at the end of the queue. */
  lemma {:induction false} Turns(s: State, hz: nat, i: nat, t: Task)
    requires hz >= 100 && Settled(s, hz) && s.queue != [] && Fresh(s, hz) && i <= |s.queue|
    ensures Beats(s, hz, Sum(s.queue[..i], hz)) == Rotated(s, i)
    ensures Charge(s, hz, Sum(s.queue[..i], hz), t) == if t in s.queue[..i] then Full(hz, t) else 0
  {
    hide *;
    if i == 0 {
      NoTurn(s, hz, t);
    } else {
      Turns(s, hz, i - 1, t);
      RotatedFresh(s, i - 1, hz);
      RotatedSettled(s, i - 1, hz);
      RotatedAgain(s, i - 1);
      FirstTasks(s.queue, i, hz);
      SettledNoDup(s, hz);
      TurnAfter(s, Rotated(s, i - 1), hz, Sum(s.queue[..i - 1], hz), t);
    }
  }

  lemma NoTurn(s: State, hz: nat, t: Task)
    requires Settled(s, hz) && s.queue != []
    ensures Beats(s, hz, Sum(s.queue[..0], hz)) == Rotated(s, 0) && Charge(s, hz, Sum(s.queue[..0], hz), t) == 0
  {
    assert s.queue[0..] + s.queue[..0] == s.queue;
    assert Sum(s.queue[..0], hz) == 0;
  }

  lemma SettledNoDup(s: State, hz: nat)
    requires Settled(s, hz)
    ensures NoDup(s.queue)
  {
  }

  /** One more turn after `before` ticks. */
  lemma TurnAfter(s: State, r: State, hz: nat, before: nat, t: Task)
    requires hz >= 100 && Settled(r, hz) && r.queue != [] && Fresh(r, hz) && Beats(s, hz, before) == r
    ensures var x := r.queue[0];
            && Beats(s, hz, before + Full(hz, x)) == Rotated(r, 1)
            && Charge(s, hz, before + Full(hz, x), t) == Charge(s, hz, before, t) + if t == x then Full(hz, x) else 0
  {
    hide *;
    Turn(r, hz, t);
    BeatsAdd(s, hz, before, Full(hz, r.queue[0]), t);
  }

  lemma OneBlock(s: State, hz: nat, t: Task)
    requires hz >= 100 && Settled(s, hz) && Fresh(s, hz) && t in s.queue
    ensures Beats(s, hz, Sum(s.queue, hz)) == s
    ensures Charge(s, hz, Sum(s.queue, hz), t) == Full(hz, t)
  {
    var q := s.queue;
    assert q[..|q|] == q && q[|q|..] + q[..|q|] == q;
    assert Rotated(s, |q|) == s;
    hide *;
    Turns(s, hz, |q|, t);
  }

  function Times(m: nat, n: nat): nat {
    m * n
  }

  lemma Again(m: nat, n: nat)
    requires m > 0
    ensures Times(m, n) == Times(m - 1, n) + n
  {
  }

  lemma NoBlocks(s: State, hz: nat, m: nat, n: nat, t: Task)
    ensures Beats(s, hz, Times(0, m)) == s && Charge(s, hz, Times(0, m), t) == Times(0, n)
  {
    assert Times(0, m) == Times(0, n) == 0;
  }

  /** Over any number of blocks of ticks, each as long as all slices together, every task is charged exactly
      its own slice in each, and queue and slices are back where they were. */
  lemma {:induction false} WeightedFairness(s: State, hz: nat, blocks: nat, t: Task)
    requires hz >= 100 && Settled(s, hz) && Fresh(s, hz) && t in s.queue
    ensures Beats(s, hz, Times(blocks, Sum(s.queue, hz))) == s
    ensures Charge(s, hz, Times(blocks, Sum(s.queue, hz)), t) == Times(blocks, Full(hz, t))
  {
    hide *;
    if blocks == 0 {
      NoBlocks(s, hz, Sum(s.queue, hz), Full(hz, t), t);
    } else {
      var n := Sum(s.queue, hz);
      WeightedFairness(s, hz, blocks - 1, t);
      OneBlock(s, hz, t);
      Again(blocks, n);
      Again(blocks, Full(hz, t));
      BeatsAdd(s, hz, Times(blocks - 1, n), n, t);
    }
  }

  /** So with a clock of full hundreds a foreground task gets ten times what a background task gets. */
  lemma {:induction false} TenfoldShare(s: State, hz: nat, blocks: nat, f: Task, b: Task)
    requires hz >= 100 && hz % 100 == 0 && Settled(s, hz) && Fresh(s, hz) && f in s.queue && b in s.queue
    requires f.foreground && !b.foreground
    ensures var n := Times(blocks, Sum(s.queue, hz));
            Charge(s, hz, n, f) == 10 * Charge(s, hz, n, b) && Charge(s, hz, n, b) == Times(blocks, hz / 100)
  {
    SliceLength(hz, f);
    SliceLength(hz, b);
    hide *;
    WeightedFairness(s, hz, blocks, f);
    WeightedFairness(s, hz, blocks, b);
    TenTimes(blocks, hz / 100);
  }

  lemma TenTimes(m: nat, n: nat)
    ensures Times(m, 10 * n) == 10 * Times(m, n)
  {
  }

  // ---------------------------------------------------------------- the queue itself

  /** The parts of struct rq this class works on. */
  class Rq {
    const hz: nat
    var queue: seq<Task>         // wrr.queue_wrr
    var wrrNrRunning: int
    var nrRunning: int
    var curr: Task?
    var needResched: bool
    ghost var tasks: set<Task>

    constructor (hz: nat)
      ensures this.hz == hz && tasks == {} && nrRunning == 0 && Inv(Abs(), hz)
    {
      this.hz, queue, wrrNrRunning, nrRunning, curr, needResched, tasks := hz, [], 0, 0, null, false, {};
    }

    /** A task comes to this CPU, by birth or by migration, and is not queued yet. */
    method Adopt(t: Task)
      requires t !in tasks && Inv(Abs(), hz)
      modifies this`tasks
      ensures tasks == old(tasks) + {t} && Inv(Abs(), hz)
      ensures Abs() == old(Abs()).(slice := old(Abs()).slice[t := t.slice])
    {
      ghost var s := Abs();
      tasks := tasks + {t};
      assert Abs().slice == s.slice[t := t.slice];
    }

    ghost function Abs(): State
      reads this, tasks
    {
      State(queue, map t | t in tasks :: t.slice, wrrNrRunning, curr, needResched)
    }

    /** __dequeue_wrr_entity. */
    method DequeueEntity(t: Task)
      requires t in queue
      modifies this`queue, this`wrrNrRunning
      ensures Abs() == Without(old(Abs()), t) && queue == Remove(old(queue), t)
    {
      queue := Remove(queue, t);
      wrrNrRunning := wrrNrRunning - 1;
    }

    /** dequeue_wrr_stack, without groups. */
    method DequeueStack(t: Task)
      modifies this`queue, this`wrrNrRunning
      ensures Abs() == Without(old(Abs()), t) && queue == if t in old(queue) then Remove(old(queue), t) else old(queue)
    {
      if t in queue {
        DequeueEntity(t);
      }
    }

    method SetSlice(t: Task)
      requires t in tasks
      modifies t
      ensures Abs() == old(Abs()).(slice := old(Abs()).slice[t := Full(hz, t)])
      ensures t.slice == if t.foreground then hz / 10 else hz / 100
    {
      if t.foreground {
        t.slice := 100 * hz / 1000;
      } else {
        t.slice := 10 * hz / 1000;
      }
      assert Abs().slice == old(Abs()).slice[t := Full(hz, t)];
    }

    lemma Placing(q: seq<Task>, p: Task, head: bool)
      ensures p in q ==> MovedTo(q, if head then [p] + Remove(q, p) else Remove(q, p) + [p], p, head)
      ensures AddedTo(q, if head then [p] + q else q + [p], p, head)
    {
      if p in q {
        RemoveInsertMoves(q, p, head);
      }
    }

    /** The list part of __enqueue_wrr_entity. */
    method LinkTask(p: Task, head: bool)
      modifies this`queue, this`wrrNrRunning
      ensures queue == if head then [p] + old(queue) else old(queue) + [p]
      ensures Abs() == old(Abs()).(queue := queue, nr := old(Abs()).nr + 1)
    {
      if head {
        queue := [p] + queue;
      } else {
        queue := queue + [p];
      }
      wrrNrRunning := wrrNrRunning + 1;
    }

    /** enqueue_task_wrr, with enqueue_wrr_entity and __enqueue_wrr_entity. */
    method EnqueueTaskWrr(p: Task, head: bool)
      requires p in tasks
      modifies this`queue, this`wrrNrRunning, this`nrRunning, p
      ensures Abs() == Enqueued(old(Abs()), p, head, hz) && nrRunning == old(nrRunning) + 1
      ensures p.slice == if p.foreground then hz / 10 else hz / 100
      ensures if p in old(queue) then MovedTo(old(queue), queue, p, head) else AddedTo(old(queue), queue, p, head)
    {
      hide Without;
      hide Full;
      hide MovedTo;
      hide AddedTo;
      hide Remove;
      Placing(queue, p, head);
      DequeueStack(p);
      SetSlice(p);
      LinkTask(p, head);
      nrRunning := nrRunning + 1;
    }

    /** dequeue_task_wrr. */
    method DequeueTaskWrr(p: Task)
      modifies this`queue, this`wrrNrRunning, this`nrRunning
      ensures Abs() == Without(old(Abs()), p) && nrRunning == old(nrRunning) - 1
    {
      DequeueStack(p);
      nrRunning := nrRunning - 1;
    }

    /** What a change of settings does to a queued task, the running one or another: off, and on again with a
        full slice.  prio_changed_wrr is empty, so nobody asks for a reschedule. */
    method PutBack(p: Task, head: bool)
      requires Inv(Abs(), hz) && p in queue && p in tasks
      modifies this`queue, this`wrrNrRunning, this`nrRunning, p
      ensures Abs() == Next(old(Abs()), Join(p, head), hz) && nrRunning == old(nrRunning)
    {
      RemoveSpec(queue, p);
      DequeueTaskWrr(p);
      EnqueueTaskWrr(p, head);
    }

    /** requeue_task_wrr. */
    method RequeueTaskWrr(p: Task, head: bool)
      modifies this`queue
      ensures Abs() == Requeued(old(Abs()), p, head)
      ensures if p in old(queue) then MovedTo(old(queue), queue, p, head) else queue == old(queue)
    {
      hide MovedTo;
      hide AddedTo;
      Placing(queue, p, head);
      if p in queue {
        queue := Remove(queue, p);
        if head {
          queue := [p] + queue;
        } else {
          queue := queue + [p];
        }
      }
    }

    /** yield_task_wrr. */
    method YieldTaskWrr()
      requires curr != null
      modifies this`queue
      ensures Abs() == Requeued(old(Abs()), old(curr), false)
      ensures if curr in old(queue) then MovedTo(old(queue), queue, curr, false) else queue == old(queue)
    {
      RequeueTaskWrr(curr, false);
    }

    /** task_tick_wrr. */
    method TaskTickWrr(p: Task)
      requires p in tasks
      modifies this`queue, this`needResched, p
      ensures Abs() == Ticked(old(Abs()), p, hz)
      ensures p.slice == if old(p.slice) == 0 then 0xFFFF_FFFF else if old(p.slice) > 1 then old(p.slice) - 1
                         else if p.foreground then hz / 10 else hz / 100
      ensures if old(p.slice) == 1 && p in old(queue) && |old(queue)| > 1
              then needResched && MovedTo(old(queue), queue, p, false)
              else needResched == old(needResched) && queue == old(queue)
    {
      hide MovedTo;
      hide Requeued;
      p.slice := Decrement(p.slice);
      assert Abs().slice == old(Abs()).slice[p := p.slice];
      if p.slice != 0 {
        return;
      }
      SetSlice(p);
      assert Abs().slice == old(Abs()).slice[p := p.slice];
      if p in queue && |queue| > 1 {
        RequeueTaskWrr(p, false);
        needResched := true;
      }
    }

    /** _pick_next_task_wrr; its BUG_ON is for an empty list, which nr_running excludes. */
    method PickNextTaskWrr() returns (p: Task?)
      requires Inv(Abs(), hz)
      ensures p == Scheduled(Abs()).curr && (p == null <==> queue == [])
    {
      if wrrNrRunning == 0 {
        return null;
      }
      p := queue[0];
    }
  }
}
