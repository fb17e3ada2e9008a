/** Scheduling policies, scheduling classes and run queues: which task is queued where, and how the next
    one is found. */
module ClassChain {
  import opened Kernel
  import opened Lists

  const MAX_PRIO: nat := 140

  const SCHED_NORMAL := 0
  const SCHED_FIFO := 1
  const SCHED_RR := 2
  const SCHED_BATCH := 3
  const SCHED_IDLE := 5
  const SCHED_WRR := 6

  datatype Class = Rt | Wrr | Fair

  class Task {
    var policy: int
    var rtPriority: nat
    var staticPrio: nat
    var normalPrio: nat        // without priority inheritance
    var prio: nat              // with it
    var schedClass: Class
    var onRq: bool
    var resetOnFork: bool

    /** A task of its own, at nice 0. */
    constructor ()
      ensures Abs() == FIRST
    {
      policy, rtPriority, staticPrio, normalPrio, prio := SCHED_NORMAL, 0, 120, 120, 120;
      schedClass, onRq, resetOnFork := Fair, false, false;
    }

    function Abs(): Info
      reads this
    {
      Info(policy, rtPriority, staticPrio, normalPrio, prio, schedClass, onRq, resetOnFork)
    }

    lemma Fields()
      ensures Abs() == Info(policy, rtPriority, staticPrio, normalPrio, prio, schedClass, onRq, resetOnFork)
    {
    }

    method Set(i: Info)
      modifies this
      ensures Abs() == i
    {
      policy, rtPriority, staticPrio, normalPrio, prio := i.policy, i.rtPriority, i.staticPrio, i.normalPrio, i.prio;
      schedClass, onRq, resetOnFork := i.schedClass, i.onRq, i.resetOnFork;
    }
  }

  /** What the scheduler knows about a task. */
  datatype Info = Info(policy: int, rtPriority: nat, staticPrio: nat, normalPrio: nat, prio: nat,
                       schedClass: Class, onRq: bool, resetOnFork: bool)

  /** INIT_TASK, with the class sched_init gives it; it is not queued. */
  const FIRST := Info(SCHED_NORMAL, 0, 120, 120, 120, Fair, false, false)

  datatype State = State(
    task: map<Task, Info>,
    rt: seq<seq<Task>>,        // the lists of the real-time priority array
    wrr: seq<Task>,
    fair: set<Task>,           // cfs.h_nr_running counts them
    nrRunning: int)

  predicate Known(policy: int) {
    policy == SCHED_FIFO || policy == SCHED_RR || policy == SCHED_NORMAL || policy == SCHED_BATCH
    || policy == SCHED_IDLE || policy == SCHED_WRR
  }

  predicate RtPolicy(policy: int) {
    policy == SCHED_FIFO || policy == SCHED_RR || policy == SCHED_WRR
  }

  function NormalPrio(policy: int, rtPriority: nat, staticPrio: nat): nat
    requires RtPolicy(policy) ==> rtPriority < MAX_RT_PRIO
  {
    if RtPolicy(policy) then MAX_RT_PRIO - 1 - rtPriority else staticPrio
  }

  function ClassOf(policy: int, prio: nat): Class {
    if policy == SCHED_WRR then Wrr else if prio < MAX_RT_PRIO then Rt else Fair
  }

  /** t is the first or the last of a list. */
  predicate EndIn(l: seq<Task>, t: Task, head: bool) {
    l != [] && l[if head then 0 else |l| - 1] == t
  }

  // ---------------------------------------------------------------- queues

  /** enqueue_task, through the task's class. */
  ghost function Enqueue(s: State, t: Task, head: bool): State
    requires t in s.task && |s.rt| == MAX_RT_PRIO && (s.task[t].schedClass.Rt? ==> s.task[t].prio < MAX_RT_PRIO)
  {
    var r := s.(nrRunning := s.nrRunning + 1);
    match s.task[t].schedClass
    case Rt => r.(rt := s.rt[s.task[t].prio := Insert(s.rt[s.task[t].prio], t, head)])
    case Wrr => r.(wrr := Insert(s.wrr, t, head))
    case Fair => r.(fair := s.fair + {t})
  }

  /** dequeue_task. */
  ghost function Dequeue(s: State, t: Task): State
    requires t in s.task && |s.rt| == MAX_RT_PRIO && (s.task[t].schedClass.Rt? ==> s.task[t].prio < MAX_RT_PRIO)
  {
    var r := s.(nrRunning := s.nrRunning - 1);
    match s.task[t].schedClass
    case Rt => r.(rt := s.rt[s.task[t].prio := Remove(s.rt[s.task[t].prio], t)])
    case Wrr => r.(wrr := Remove(s.wrr, t))
    case Fair => r.(fair := s.fair - {t})
  }

  // ---------------------------------------------------------------- the invariant

  /** Policy, priorities and class of one task agree. */
  ghost predicate InfoOk(i: Info) {
    && Known(i.policy) && i.schedClass == ClassOf(i.policy, i.prio)
    && i.prio <= i.normalPrio && MAX_RT_PRIO <= i.staticPrio < MAX_PRIO
    && (RtPolicy(i.policy) ==> 1 <= i.rtPriority < MAX_RT_PRIO)
    && i.normalPrio == NormalPrio(i.policy, i.rtPriority, i.staticPrio)
  }

  ghost predicate ListOk(s: State, p: nat)
    requires p < |s.rt|
  {
    && NoDup(s.rt[p])
    && (forall t :: t in s.rt[p] ==> t in s.task && s.task[t].onRq && s.task[t].schedClass.Rt? && s.task[t].prio == p)
    && (forall t :: t in s.task && s.task[t].onRq && s.task[t].schedClass.Rt? && s.task[t].prio == p ==> t in s.rt[p])
  }

  ghost predicate WrrOk(s: State) {
    && NoDup(s.wrr)
    && (forall t :: t in s.wrr ==> t in s.task && s.task[t].onRq && s.task[t].schedClass.Wrr?)
    && (forall t :: t in s.task && s.task[t].onRq && s.task[t].schedClass.Wrr? ==> t in s.wrr)
  }

  ghost predicate FairOk(s: State) {
    && (forall t :: t in s.fair ==> t in s.task && s.task[t].onRq && s.task[t].schedClass.Fair?)
    && (forall t :: t in s.task && s.task[t].onRq && s.task[t].schedClass.Fair? ==> t in s.fair)
  }

  ghost predicate CountOk(s: State) {
    s.nrRunning == TotalLen(s.rt) + |s.wrr| + |s.fair|
  }

  /** A runnable task is linked in its class's queue, at its priority, and nowhere else. */
  ghost predicate QueuesOk(s: State) {
    && |s.rt| == MAX_RT_PRIO
    && (forall p :: 0 <= p < MAX_RT_PRIO ==> ListOk(s, p))
    && WrrOk(s) && FairOk(s) && CountOk(s)
  }

  ghost predicate Inv(s: State) {
    && (forall t :: t in s.task ==> InfoOk(s.task[t]))
    && QueuesOk(s)
  }

  // ---------------------------------------------------------------- on and off

  ghost predicate Room(s: State, t: Task) {
    t in s.task && InfoOk(s.task[t])
  }

  ghost function WithOn(s: State, t: Task, on: bool): State
    requires t in s.task
  {
    s.(task := s.task[t := s.task[t].(onRq := on)])
  }

  lemma EnqueueLists(s: State, t: Task, head: bool, p: nat)
    requires QueuesOk(s) && Room(s, t) && !s.task[t].onRq && p < MAX_RT_PRIO
    ensures ListOk(Enqueue(WithOn(s, t, true), t, head), p)
  {
    assert ListOk(s, p);
  }

  lemma EnqueueCounts(s: State, t: Task, head: bool)
    requires QueuesOk(s) && Room(s, t) && !s.task[t].onRq
    ensures CountOk(Enqueue(WithOn(s, t, true), t, head))
  {
    if s.task[t].schedClass.Rt? {
      var p := s.task[t].prio;
      TotalLenUpdate(s.rt, p, Insert(s.rt[p], t, head));
    }
    hide ListOk;
  }

  lemma EnqueueWrr(s: State, t: Task, head: bool)
    requires QueuesOk(s) && Room(s, t) && !s.task[t].onRq
    ensures WrrOk(Enqueue(WithOn(s, t, true), t, head))
  {
    hide ListOk;
    hide FairOk;
    hide CountOk;
  }

  lemma EnqueueFair(s: State, t: Task, head: bool)
    requires QueuesOk(s) && Room(s, t) && !s.task[t].onRq
    ensures FairOk(Enqueue(WithOn(s, t, true), t, head))
  {
    hide ListOk;
    hide WrrOk;
    hide CountOk;
  }

  lemma EnqueueKeeps(s: State, t: Task, head: bool)
    requires QueuesOk(s) && Room(s, t) && !s.task[t].onRq
    ensures QueuesOk(Enqueue(WithOn(s, t, true), t, head))
  {
    EnqueueWrr(s, t, head);
    EnqueueFair(s, t, head);
    EnqueueCounts(s, t, head);
    var r := Enqueue(WithOn(s, t, true), t, head);
    forall p | 0 <= p < MAX_RT_PRIO ensures ListOk(r, p) {
      EnqueueLists(s, t, head, p);
    }
  }

  lemma DequeueLists(s: State, t: Task, p: nat)
    requires QueuesOk(s) && Room(s, t) && s.task[t].onRq && p < MAX_RT_PRIO
    ensures ListOk(WithOn(Dequeue(s, t), t, false), p)
  {
    assert ListOk(s, p);
    if s.task[t].schedClass.Rt? && s.task[t].prio == p {
      RemoveSpec(s.rt[p], t);
    }
  }

  lemma DequeueOthers(s: State, t: Task)
    requires QueuesOk(s) && Room(s, t) && s.task[t].onRq
    ensures var r := WithOn(Dequeue(s, t), t, false); WrrOk(r) && FairOk(r) && CountOk(r)
  {
    match s.task[t].schedClass {
      case Rt =>
        var p := s.task[t].prio;
        assert ListOk(s, p);
        RemoveSpec(s.rt[p], t);
        TotalLenUpdate(s.rt, p, Remove(s.rt[p], t));
      case Wrr => RemoveSpec(s.wrr, t);
      case Fair =>
    }
  }

  lemma DequeueKeeps(s: State, t: Task)
    requires QueuesOk(s) && Room(s, t) && s.task[t].onRq
    ensures QueuesOk(WithOn(Dequeue(s, t), t, false))
  {
    DequeueOthers(s, t);
    var r := WithOn(Dequeue(s, t), t, false);
    forall p | 0 <= p < MAX_RT_PRIO ensures ListOk(r, p) {
      DequeueLists(s, t, p);
    }
  }

  /** While a task is off its queue, its settings may change. */
  lemma OffMayChange(s: State, t: Task, i: Info)
    requires QueuesOk(s) && Room(s, t) && !s.task[t].onRq && !i.onRq
    ensures QueuesOk(s.(task := s.task[t := i]))
  {
    var r := s.(task := s.task[t := i]);
    forall p | 0 <= p < MAX_RT_PRIO ensures ListOk(r, p) {
      assert ListOk(s, p);
    }
  }

  /** Take a task off its queue if it is on one, change its settings, and put it back. */
  ghost function Requeue(s: State, t: Task, i: Info, head: bool): State
    requires Room(s, t) && InfoOk(i) && |s.rt| == MAX_RT_PRIO
  {
    if s.task[t].onRq then
      var off := Dequeue(s, t);
      Enqueue(off.(task := off.task[t := i]), t, head)
    else s.(task := s.task[t := i])
  }

  ghost function Off(s: State, t: Task): State
    requires Room(s, t) && |s.rt| == MAX_RT_PRIO
  {
    WithOn(Dequeue(s, t), t, false)
  }

  lemma RequeueByParts(s: State, t: Task, i: Info, head: bool)
    requires Room(s, t) && InfoOk(i) && |s.rt| == MAX_RT_PRIO && s.task[t].onRq && i.onRq
    ensures var off := Off(s, t);
            var changed := off.(task := off.task[t := i.(onRq := false)]);
            Requeue(s, t, i, head) == Enqueue(WithOn(changed, t, true), t, head)
  {
    var off := Off(s, t);
    var changed := off.(task := off.task[t := i.(onRq := false)]);
    var d := Dequeue(s, t);
    assert WithOn(changed, t, true).task == d.task[t := i];
  }

  lemma RequeueKeeps(s: State, t: Task, i: Info, head: bool)
    requires QueuesOk(s) && Room(s, t) && InfoOk(i) && i.onRq == s.task[t].onRq
    ensures QueuesOk(Requeue(s, t, i, head))
  {
    if s.task[t].onRq {
      var off := Off(s, t);
      var changed := off.(task := off.task[t := i.(onRq := false)]);
      RequeueByParts(s, t, i, head);
      DequeueKeeps(s, t);
      hide Requeue;
      hide Enqueue;
      hide Dequeue;
      OffMayChange(off, t, i.(onRq := false));
      EnqueueKeeps(changed, t, head);
    } else {
      OffMayChange(s, t, i);
    }
  }

  // ---------------------------------------------------------------- changes of policy and priority

  /** rt_mutex_getprio: the priority of the best waiter, if that is better. */
  function MutexPrio(normalPrio: nat, waiter: nat): nat {
    if waiter < normalPrio then waiter else normalPrio
  }

  /** __setscheduler. */
  function SetScheduler(i: Info, policy: int, prio: nat, waiter: nat): Info
    requires RtPolicy(policy) ==> prio < MAX_RT_PRIO
  {
    var normal := NormalPrio(policy, prio, i.staticPrio);
    var p := MutexPrio(normal, waiter);
    i.(policy := policy, rtPriority := prio, normalPrio := normal, prio := p, schedClass := ClassOf(policy, p))
  }

  /** Which requests __sched_setscheduler refuses, permissions aside; a negative policy stands for the old one. */
  function Refusal(i: Info, policy: int, prio: int): int {
    if policy >= 0 && !Known(policy) then -EINVAL
    else if prio < 0 || prio > MAX_RT_PRIO - 1 then -EINVAL
    else if RtPolicy(if policy < 0 then i.policy else policy) != (prio != 0) then -EINVAL
    else 0
  }

  /** The operations of the source.  `waiter` is the priority of the best task that waits for a mutex of this
      one, MAX_PRIO if there is none; rt_mutex_setprio is called with what rt_mutex_getprio makes of it. */
  datatype Op =
    | SetPolicy(policy: int, prio: int, reset: bool, waiter: nat)    // __sched_setscheduler
    | Boost(waiter: nat)                                                 // rt_mutex_setprio
    | Nice(nice: int)                                                // set_user_nice
    | Normalize(waiter: nat)                                         // normalize_task
    | WakeUp
    | Sleep

  /** A task's settings after the operation. */
  function Settings(i: Info, op: Op): Info {
    match op
    case SetPolicy(policy, prio, reset, waiter) =>
      var pol := if policy < 0 then i.policy else policy;
      if Refusal(i, policy, prio) != 0 then i
      else if pol == i.policy && (!RtPolicy(pol) || prio == i.rtPriority) then i
      else SetScheduler(i.(resetOnFork := if policy < 0 then i.resetOnFork else reset), pol, prio, waiter)
    case Boost(waiter) =>
      var p := MutexPrio(i.normalPrio, waiter);
      i.(prio := p, schedClass := ClassOf(i.policy, p))
    case Nice(nice) =>
      if i.staticPrio == 120 + nice || nice < -20 || nice > 19 then i
      else if RtPolicy(i.policy) then i.(staticPrio := 120 + nice)
      else i.(staticPrio := 120 + nice, normalPrio := 120 + nice,
              prio := if i.prio < MAX_RT_PRIO then i.prio else 120 + nice)
    case Normalize(waiter) => SetScheduler(i, SCHED_NORMAL, 0, waiter)
    case WakeUp => i.(onRq := true)
    case Sleep => i.(onRq := false)
  }

  /** Does the operation take the task off its queue and put it back? */
  predicate Moves(i: Info, op: Op) {
    match op
    case SetPolicy(policy, prio, reset, waiter) =>
      var pol := if policy < 0 then i.policy else policy;
      Refusal(i, policy, prio) == 0 && !(pol == i.policy && (!RtPolicy(pol) || prio == i.rtPriority))
    case Boost(waiter) => true
    case Nice(nice) => !(i.staticPrio == 120 + nice || nice < -20 || nice > 19) && !RtPolicy(i.policy)
    case Normalize(waiter) => true
    case WakeUp => false
    case Sleep => false
  }

  /** rt_mutex_setprio puts a task whose priority drops at the head of its new list. */
  predicate AtHead(i: Info, op: Op) {
    op.Boost? && i.prio < MutexPrio(i.normalPrio, op.waiter)
  }

  lemma SettingsOk(i: Info, op: Op)
    requires InfoOk(i)
    ensures InfoOk(Settings(i, op))
  {
  }

  ghost function Step(s: State, t: Task, op: Op): State
    requires Room(s, t) && |s.rt| == MAX_RT_PRIO
  {
    SettingsOk(s.task[t], op);
    var i := Settings(s.task[t], op);
    match op
    case WakeUp => if s.task[t].onRq then s else Enqueue(s.(task := s.task[t := i]), t, false)
    case Sleep => if s.task[t].onRq then WithOn(Dequeue(s, t), t, false) else s
    case _ => if Moves(s.task[t], op) then Requeue(s, t, i, AtHead(s.task[t], op)) else s.(task := s.task[t := i])
  }

  /** Settings that are not looked at by the queues may change in place. */
  lemma InPlace(s: State, t: Task, i: Info)
    requires QueuesOk(s) && t in s.task
    requires i.onRq == s.task[t].onRq && i.schedClass == s.task[t].schedClass && i.prio == s.task[t].prio
    ensures QueuesOk(s.(task := s.task[t := i]))
  {
    var r := s.(task := s.task[t := i]);
    forall p | 0 <= p < MAX_RT_PRIO ensures ListOk(r, p) {
      assert ListOk(s, p);
    }
  }

  lemma StepTask(s: State, t: Task, op: Op)
    requires Room(s, t) && |s.rt| == MAX_RT_PRIO
    ensures Step(s, t, op).task == s.task[t := Settings(s.task[t], op)]
  {
    SettingsOk(s.task[t], op);
  }

  lemma StepQueues(s: State, t: Task, op: Op)
    requires QueuesOk(s) && Room(s, t)
    ensures QueuesOk(Step(s, t, op))
  {
    var i := Settings(s.task[t], op);
    SettingsOk(s.task[t], op);
    hide Enqueue;
    hide Dequeue;
    hide Requeue;
    if op.WakeUp? {
      if !s.task[t].onRq {
        EnqueueKeeps(s, t, false);
      }
    } else if op.Sleep? {
      if s.task[t].onRq {
        DequeueKeeps(s, t);
      }
    } else if Moves(s.task[t], op) {
      RequeueKeeps(s, t, i, AtHead(s.task[t], op));
    } else {
      InPlace(s, t, i);
    }
  }

  /** Every operation keeps policy, class and queue in agreement. */
  lemma StepKeeps(s: State, t: Task, op: Op)
    requires Inv(s) && t in s.task
    ensures Inv(Step(s, t, op))
  {
    StepQueues(s, t, op);
    StepTask(s, t, op);
    SettingsOk(s.task[t], op);
    hide Step;
    hide QueuesOk;
  }

  // ---------------------------------------------------------------- fork

  /** sched_fork: what the child, a copy of its parent, ends up with. */
  function Forked(parent: Info): Info {
    var c := parent.(onRq := false, prio := parent.normalPrio);
    var d := if !c.resetOnFork then c
             else
               var rt := RtPolicy(c.policy);
               var static_ := if rt || c.staticPrio < 120 then 120 else c.staticPrio;
               c.(policy := if rt then SCHED_NORMAL else c.policy, staticPrio := static_,
                  rtPriority := if rt then 0 else c.rtPriority,
                  prio := static_, normalPrio := static_, resetOnFork := false);
    if d.prio >= MAX_RT_PRIO then d.(schedClass := Fair) else d
  }

  /** A child never inherits a boost, nor a class its policy does not have. */
  lemma ForkedOk(parent: Info)
    requires InfoOk(parent)
    ensures InfoOk(Forked(parent)) && !Forked(parent).onRq
    ensures Forked(parent).prio == Forked(parent).normalPrio
    ensures parent.resetOnFork ==> !RtPolicy(Forked(parent).policy) && Forked(parent).schedClass == Fair
    ensures Forked(parent).staticPrio
         == if !parent.resetOnFork || (!RtPolicy(parent.policy) && parent.staticPrio >= 120) then parent.staticPrio
            else 120
    ensures !Forked(parent).resetOnFork
    ensures !parent.resetOnFork || !RtPolicy(parent.policy) ==>
              Forked(parent).policy == parent.policy && Forked(parent).rtPriority == parent.rtPriority
    ensures parent.resetOnFork && RtPolicy(parent.policy) ==>
              Forked(parent).policy == SCHED_NORMAL && Forked(parent).rtPriority == 0
  {
  }

  lemma ForkKeeps(s: State, parent: Task, child: Task)
    requires Inv(s) && parent in s.task && child !in s.task
    ensures Inv(s.(task := s.task[child := Forked(s.task[parent])]))
  {
    ForkedOk(s.task[parent]);
    var r := s.(task := s.task[child := Forked(s.task[parent])]);
    forall p | 0 <= p < MAX_RT_PRIO ensures ListOk(r, p) {
      assert ListOk(s, p);
    }
  }

  // ---------------------------------------------------------------- runs

  datatype Event = Do(t: Task, op: Op) | Fork(parent: Task, child: Task)

  /** Operations on tasks that do not exist, and children that already do, are no events. */
  ghost predicate Possible(s: State, e: Event) {
    match e
    case Do(t, op) => t in s.task
    case Fork(parent, child) => parent in s.task && child !in s.task
  }

  ghost function After(s: State, e: Event): State
    requires Inv(s) && Possible(s, e)
  {
    match e
    case Do(t, op) => Step(s, t, op)
    case Fork(parent, child) => s.(task := s.task[child := Forked(s.task[parent])])
  }

  lemma AfterKeeps(s: State, e: Event)
    requires Inv(s) && Possible(s, e)
    ensures Inv(After(s, e))
  {
    match e {
      case Do(t, op) => StepKeeps(s, t, op);
      case Fork(parent, child) => ForkKeeps(s, parent, child);
    }
  }

  /** `run` is a sequence of states, each of which comes from the one before by one event. */
  ghost predicate IsRun(run: seq<State>, es: seq<Event>) {
    && |run| == |es| + 1
    && forall k :: 0 <= k < |es| ==> Leads(run[k], es[k], run[k + 1])
  }

  ghost predicate Leads(s: State, e: Event, r: State) {
    Inv(s) ==> Possible(s, e) && r == After(s, e)
  }

  /** Policy, class and queue agree in every state that can be reached. */
  lemma {:induction false} Reachable(run: seq<State>, es: seq<Event>, k: nat)
    requires IsRun(run, es) && Inv(run[0]) && k <= |es|
    ensures Inv(run[k])
  {
    if k > 0 {
      var j := k - 1;
      Reachable(run, es, j);
      assert Leads(run[j], es[j], run[j + 1]);
      AfterKeeps(run[j], es[j]);
    }
  }

  /** After sched_init: empty queues and the first task. */
  ghost function Boot(first: Task): State {
    State(map[first := FIRST], seq(MAX_RT_PRIO, i => []), [], {}, 0)
  }

  lemma BootOk(first: Task)
    ensures Inv(Boot(first))
  {
    TotalLenZero(Boot(first).rt);
  }

  /** So they do in every run from boot, in which every other task descends from the first. */
  lemma {:induction false} FromBoot(first: Task, run: seq<State>, es: seq<Event>, k: nat)
    requires IsRun(run, es) && run[0] == Boot(first) && k <= |es|
    ensures Inv(run[k])
  {
    BootOk(first);
    hide Inv;
    Reachable(run, es, k);
  }

  // ---------------------------------------------------------------- the next task

  datatype Choice = Nothing | Next(t: Task) | Idle

  /** _pick_next_task_rt, without groups. */
  function PickRt(rt: seq<seq<Task>>, throttled: bool): Choice {
    if TotalLen(rt) == 0 || throttled then Nothing else FirstOf(rt)
  }

  function FirstOf(rt: seq<seq<Task>>): Choice {
    if rt == [] then Nothing else if rt[0] != [] then Next(rt[0][0]) else FirstOf(rt[1..])
  }

  function PickWrr(wrr: seq<Task>): Choice {
    if wrr == [] then Nothing else Next(wrr[0])
  }

  /** for_each_class, from the real-time class on: no stop task is runnable.  `fair` is what the fair class
      would pick. */
  function Walk(s: State, throttled: bool, fair: Choice): Choice {
    var r, w := PickRt(s.rt, throttled), PickWrr(s.wrr);
    if r != Nothing then r else if w != Nothing then w else if fair != Nothing then fair else Idle
  }

  /** The fair class has a task to offer exactly when one is queued there. */
  ghost predicate FairChoice(s: State, fair: Choice) {
    fair != Idle && (fair == Nothing <==> s.fair == {}) && (fair.Next? ==> fair.t in s.fair)
  }

  /** pick_next_task. */
  function Pick(s: State, throttled: bool, fair: Choice): Choice {
    if s.nrRunning == |s.fair| && fair != Nothing then fair else Walk(s, throttled, fair)
  }

  /** The short cut for fair tasks finds what the walk over all classes would. */
  lemma ShortCut(s: State, throttled: bool, fair: Choice)
    requires Inv(s) && FairChoice(s, fair)
    ensures Pick(s, throttled, fair) == Walk(s, throttled, fair)
  {
  }

  lemma {:induction false} FirstOfBest(rt: seq<seq<Task>>)
    requires TotalLen(rt) > 0
    ensures exists p :: 0 <= p < |rt| && rt[p] != [] && FirstOf(rt) == Next(rt[p][0])
                        && forall k :: 0 <= k < p ==> rt[k] == []
  {
    if rt[0] == [] {
      FirstOfBest(rt[1..]);
      var p :| 0 <= p < |rt[1..]| && rt[1..][p] != [] && FirstOf(rt[1..]) == Next(rt[1..][p][0])
               && forall k :: 0 <= k < p ==> rt[1..][k] == [];
      assert rt[p + 1] == rt[1..][p];
      forall k | 0 <= k < p + 1 ensures rt[k] == [] {
        assert k > 0 ==> rt[k] == rt[1..][k - 1];
      }
    }
  }

  /** Nobody is passed over by a runnable task of a lower class: the pick is a real-time task of the best
      priority, else a WRR task, else a fair task, else the idle task; and the first of its list. */
  lemma PickIsBest(s: State, throttled: bool, fair: Choice)
    requires Inv(s) && FairChoice(s, fair)
    ensures match Pick(s, throttled, fair)
            case Nothing => false
            case Idle => forall t :: t in s.task && s.task[t].onRq ==> throttled && s.task[t].schedClass.Rt?
            case Next(x) =>
              && x in s.task && s.task[x].onRq
              && forall t :: t in s.task && s.task[t].onRq && !(throttled && s.task[t].schedClass.Rt?) ==>
                   match s.task[x].schedClass
                   case Rt => !s.task[t].schedClass.Rt? || s.task[x].prio <= s.task[t].prio
                   case Wrr => !s.task[t].schedClass.Rt?
                   case Fair => s.task[t].schedClass.Fair?
    ensures var p := Pick(s, throttled, fair);
            p.Next? && !s.task[p.t].schedClass.Fair? ==>
              if s.task[p.t].schedClass.Rt? then s.task[p.t].prio < |s.rt| && EndIn(s.rt[s.task[p.t].prio], p.t, true)
              else EndIn(s.wrr, p.t, true)
  {
    ShortCut(s, throttled, fair);
    if !throttled {
      if TotalLen(s.rt) > 0 {
        FirstOfBest(s.rt);
        var p :| 0 <= p < |s.rt| && s.rt[p] != [] && FirstOf(s.rt) == Next(s.rt[p][0])
                 && forall k :: 0 <= k < p ==> s.rt[k] == [];
        PickedRt(s, p);
      } else {
        NoRt(s);
      }
    }
  }

  /** In the user's terms: among queued SCHED_FIFO and SCHED_RR tasks without a boost none has a higher priority
      than the one picked, and none of them waits for a task without a real-time priority. */
  lemma PickedPriority(s: State, throttled: bool, fair: Choice, x: Task, t: Task)
    requires Inv(s) && FairChoice(s, fair) && !throttled && Pick(s, throttled, fair) == Next(x)
    requires x in s.task && t in s.task && s.task[t].onRq && s.task[x].prio == s.task[x].normalPrio
    requires (s.task[t].policy == SCHED_FIFO || s.task[t].policy == SCHED_RR) && s.task[t].prio == s.task[t].normalPrio
    ensures s.task[x].policy == SCHED_FIFO || s.task[x].policy == SCHED_RR
    ensures s.task[t].rtPriority <= s.task[x].rtPriority
  {
    PickIsBest(s, throttled, fair);
    assert InfoOk(s.task[x]) && InfoOk(s.task[t]);
    hide Pick;
    hide QueuesOk;
  }

  lemma PickedRt(s: State, p: nat)
    requires Inv(s) && p < MAX_RT_PRIO && s.rt[p] != [] && forall k :: 0 <= k < p ==> s.rt[k] == []
    ensures var x := s.rt[p][0];
            && x in s.task && s.task[x].onRq && s.task[x].schedClass.Rt? && s.task[x].prio == p
            && forall t :: t in s.task && s.task[t].onRq && s.task[t].schedClass.Rt? ==>
                 s.task[x].prio <= s.task[t].prio
  {
    assert ListOk(s, p) && s.rt[p][0] in s.rt[p];
    forall t | t in s.task && s.task[t].onRq && s.task[t].schedClass.Rt? ensures p <= s.task[t].prio {
      assert InfoOk(s.task[t]) && ListOk(s, s.task[t].prio);
    }
  }

  lemma NoRt(s: State)
    requires Inv(s) && TotalLen(s.rt) == 0
    ensures forall t :: t in s.task && s.task[t].onRq ==> !s.task[t].schedClass.Rt?
  {
    forall t | t in s.task && s.task[t].onRq && s.task[t].schedClass.Rt? ensures false {
      assert InfoOk(s.task[t]) && ListOk(s, s.task[t].prio);
      TotalLenPositive(s.rt, s.task[t].prio);
    }
  }

  /** sched_fork: the child starts as a copy of its parent. */
  method ForkChild(parent: Task) returns (child: Task)
    ensures fresh(child) && child.Abs() == Forked(parent.Abs())
  {
    child := new Task();
    child.Set(parent.Abs());
    child.onRq := false;
    child.prio := parent.normalPrio;
    if child.resetOnFork {
      if RtPolicy(child.policy) {
        child.policy, child.staticPrio, child.rtPriority := SCHED_NORMAL, 120, 0;
      } else if child.staticPrio < 120 {
        child.staticPrio := 120;
      }
      child.normalPrio := child.staticPrio;
      child.prio := child.normalPrio;
      child.resetOnFork := false;
    }
    if child.prio >= MAX_RT_PRIO {
      child.schedClass := Fair;
    }
  }

  // ---------------------------------------------------------------- the run queue itself

  /** The queues of struct rq, without the inside of the fair class. */
  class Rq {
    var rt: seq<seq<Task>>       // rt.active.queue
    var rtThrottled: bool
    var wrr: seq<Task>           // wrr.queue_wrr
    var fair: set<Task>
    var hNrRunning: int          // cfs.h_nr_running
    var nrRunning: int
    ghost var tasks: set<Task>

    /** sched_init. */
    constructor (first: Task)
      requires first.Abs() == FIRST
      ensures Valid() && tasks == {first} && Abs() == Boot(first)
    {
      rt, rtThrottled, wrr, fair := seq(MAX_RT_PRIO, i => []), false, [], {};
      hNrRunning, nrRunning, tasks := 0, 0, {first};
      new;
      BootOk(first);
    }

    ghost function Abs(): State
      reads this, tasks
    {
      State(map t | t in tasks :: t.Abs(), rt, wrr, fair, nrRunning)
    }

    ghost predicate Valid()
      reads this, tasks
    {
      Inv(Abs()) && hNrRunning == |fair|
    }

    /** The lists have their places, and t has one. */
    ghost predicate Ready(t: Task)
      reads this, tasks
    {
      t in tasks && |rt| == MAX_RT_PRIO && (t.schedClass.Rt? ==> t.prio < MAX_RT_PRIO) && hNrRunning == |fair|
    }

    /** The task is at one end of the list that its class and its priority ask for. */
    predicate AtEnd(t: Task, head: bool)
      reads this, t
    {
      match t.schedClass
      case Rt => t.prio < |rt| && EndIn(rt[t.prio], t, head)
      case Wrr => EndIn(wrr, t, head)
      case Fair => t in fair
    }

    /** enqueue_task. */
    method EnqueueTask(t: Task, head: bool)
      requires Ready(t) && t !in fair
      modifies this`rt, this`wrr, this`fair, this`hNrRunning, this`nrRunning
      ensures Abs() == Enqueue(old(Abs()), t, head) && hNrRunning == |fair| && AtEnd(t, head)
    {
      match t.schedClass {
        case Rt => rt := rt[t.prio := Insert(rt[t.prio], t, head)];
        case Wrr => wrr := Insert(wrr, t, head);
        case Fair =>
          fair := fair + {t};
          hNrRunning := hNrRunning + 1;
      }
      nrRunning := nrRunning + 1;
    }

    /** dequeue_task. */
    method DequeueTask(t: Task)
      requires Ready(t) && (t.schedClass.Fair? ==> t in fair)
      modifies this`rt, this`wrr, this`fair, this`hNrRunning, this`nrRunning
      ensures Abs() == Dequeue(old(Abs()), t) && hNrRunning == |fair|
    {
      match t.schedClass {
        case Rt => rt := rt[t.prio := Remove(rt[t.prio], t)];
        case Wrr => wrr := Remove(wrr, t);
        case Fair =>
          fair := fair - {t};
          hNrRunning := hNrRunning - 1;
      }
      nrRunning := nrRunning - 1;
    }

    method Assign(t: Task, i: Info)
      requires t in tasks
      modifies t
      ensures Abs() == old(Abs()).(task := old(Abs()).task[t := i])
    {
      t.Set(i);
      assert Abs().task == old(Abs()).task[t := i];
    }

    /** What the operations that may change a task's class have in common. */
    method Move(t: Task, i: Info, head: bool)
      requires Valid() && t in tasks && InfoOk(i) && i.onRq == t.onRq
      modifies this`rt, this`wrr, this`fair, this`hNrRunning, this`nrRunning, t
      ensures Abs() == Requeue(old(Abs()), t, i, head) && hNrRunning == |fair|
      ensures t.Abs() == i && (t.onRq ==> AtEnd(t, head))
    {
      assert InfoOk(Abs().task[t]) && Abs().task[t] == t.Abs();
      if t.onRq {
        DequeueTask(t);
        assert t !in fair;
        Assign(t, i);
        EnqueueTask(t, head);
      } else {
        Assign(t, i);
      }
    }

    /** A known policy, and a priority from 1 to 99 for the real-time ones, WRR among them, and 0 for the others. */
    static predicate Acceptable(policy: int, prio: int) {
      if policy == SCHED_FIFO || policy == SCHED_RR || policy == SCHED_WRR then 1 <= prio <= 99
      else (policy == SCHED_NORMAL || policy == SCHED_BATCH || policy == SCHED_IDLE) && prio == 0
    }

    /** __sched_setscheduler, permissions aside. */
    method SchedSetscheduler(t: Task, policy: int, prio: int, reset: bool, waiter: nat) returns (ret: int)
      requires Valid() && t in tasks
      modifies this`rt, this`wrr, this`fair, this`hNrRunning, this`nrRunning, t
      ensures Valid() && Abs() == Step(old(Abs()), t, SetPolicy(policy, prio, reset, waiter))
      ensures ret == Refusal(old(t.Abs()), policy, prio)
      // the same in the fields
      ensures ret == 0 || ret == -EINVAL
      ensures ret == 0 <==> Acceptable(if policy < 0 then old(t.policy) else policy, prio)
      ensures ret != 0 ==> Abs() == old(Abs())
      ensures ret == 0 ==>
                && t.policy == (if policy < 0 then old(t.policy) else policy)
                && t.staticPrio == old(t.staticPrio) && t.onRq == old(t.onRq)
                && if t.policy == SCHED_FIFO || t.policy == SCHED_RR || t.policy == SCHED_WRR
                   then t.rtPriority == prio && t.normalPrio == 99 - prio
                   else t.normalPrio == t.staticPrio
      ensures ret == 0 && (t.policy != old(t.policy) || t.rtPriority != old(t.rtPriority)) ==>
                && t.rtPriority == prio && t.prio == (if waiter < t.normalPrio then waiter else t.normalPrio)
                && t.resetOnFork == (if policy < 0 then old(t.resetOnFork) else reset)
                && (t.onRq ==> AtEnd(t, false))
      ensures t.schedClass == if t.policy == SCHED_WRR then Wrr else if t.prio < 100 then Rt else Fair
    {
      ghost var op := SetPolicy(policy, prio, reset, waiter);
      Prepare(t, op);
      PolicyFigures(t.Abs(), policy, prio, reset, waiter);
      t.Fields();
      hide *;
      ret := 0;
      var pol, resetOnFork := policy, reset;
      if policy < 0 {
        resetOnFork, pol := t.resetOnFork, t.policy;
      } else if !Known(policy) {
        return -EINVAL;
      }
      if prio < 0 || prio > MAX_RT_PRIO - 1 {
        return -EINVAL;
      }
      if RtPolicy(pol) != (prio != 0) {
        return -EINVAL;
      }
      if pol == t.policy && (!RtPolicy(pol) || prio == t.rtPriority) {
        return;
      }
      var i := SetScheduler(t.Abs().(resetOnFork := resetOnFork), pol, prio, waiter);
      MovesTo(Abs(), t, op, i);
      Move(t, i, false);
      t.Fields();
    }

    /** What is known before and after an operation. */
    lemma Prepare(t: Task, op: Op)
      requires Valid() && t in tasks
      ensures Inv(Step(Abs(), t, op)) && Abs().task[t] == t.Abs() && InfoOk(t.Abs())
      ensures InfoOk(Settings(t.Abs(), op))
      ensures Abs().(task := Abs().task[t := t.Abs()]) == Abs()
      ensures Room(Abs(), t) && |Abs().rt| == MAX_RT_PRIO && hNrRunning == |fair|
      ensures !Moves(t.Abs(), op) && Settings(t.Abs(), op) == t.Abs() && !op.WakeUp? && !op.Sleep? ==>
                Step(Abs(), t, op) == Abs()
    {
      StepKeeps(Abs(), t, op);
      SettingsOk(t.Abs(), op);
      assert Abs().task[t := t.Abs()] == Abs().task;
    }

    /** rt_mutex_setprio, called with the result of rt_mutex_getprio. */
    method RtMutexSetprio(t: Task, waiter: nat)
      requires Valid() && t in tasks
      modifies this`rt, this`wrr, this`fair, this`hNrRunning, this`nrRunning, t
      ensures Valid() && Abs() == Step(old(Abs()), t, Boost(waiter))
      ensures t.policy == old(t.policy) && t.rtPriority == old(t.rtPriority) && t.staticPrio == old(t.staticPrio)
      ensures t.normalPrio == old(t.normalPrio) && t.onRq == old(t.onRq) && t.resetOnFork == old(t.resetOnFork)
      ensures t.prio == if waiter < t.normalPrio then waiter else t.normalPrio
      ensures t.schedClass == if t.policy == SCHED_WRR then Wrr else if t.prio < 100 then Rt else Fair
      ensures t.onRq ==> AtEnd(t, old(t.prio) < t.prio)
    {
      Prepare(t, Boost(waiter));
      var prio, oldPrio := MutexPrio(t.normalPrio, waiter), t.prio;
      var schedClass := if t.policy == SCHED_WRR then Wrr else if prio < MAX_RT_PRIO then Rt else Fair;
      Move(t, t.Abs().(prio := prio, schedClass := schedClass), oldPrio < prio);
    }

    /** What a request makes of a task. */
    lemma PolicyFigures(i: Info, policy: int, prio: int, reset: bool, waiter: nat)
      requires InfoOk(i)
      ensures var op, pol := SetPolicy(policy, prio, reset, waiter), if policy < 0 then i.policy else policy;
              var r := Settings(i, op);
              && (Refusal(i, policy, prio) == 0 <==> Acceptable(pol, prio))
              && (Refusal(i, policy, prio) == 0 <==>
                    Known(pol) && 0 <= prio <= MAX_RT_PRIO - 1 && RtPolicy(pol) == (prio != 0))
              && (Refusal(i, policy, prio) == 0 || Refusal(i, policy, prio) == -EINVAL)
              && (Moves(i, op) <==> Refusal(i, policy, prio) == 0
                                    && (pol != i.policy || (RtPolicy(pol) && prio != i.rtPriority)))
              && (if Moves(i, op) then
                    && r == SetScheduler(i.(resetOnFork := if policy < 0 then i.resetOnFork else reset),
                                         pol, prio, waiter)
                    && r.policy == pol && r.rtPriority == prio && r.staticPrio == i.staticPrio && r.onRq == i.onRq
                    && r.normalPrio == (if pol == SCHED_FIFO || pol == SCHED_RR || pol == SCHED_WRR then 99 - prio
                                        else i.staticPrio)
                    && r.prio == (if waiter < r.normalPrio then waiter else r.normalPrio)
                    && r.resetOnFork == (if policy < 0 then i.resetOnFork else reset)
                  else r == i)
              && (RtPolicy(pol) <==> pol == SCHED_FIFO || pol == SCHED_RR || pol == SCHED_WRR)
              && r.schedClass == (if r.policy == SCHED_WRR then Wrr else if r.prio < 100 then Rt else Fair)
      ensures i.normalPrio == if RtPolicy(i.policy) then 99 - i.rtPriority else i.staticPrio
    {
    }

    lemma MovesTo(s: State, t: Task, op: Op, i: Info)
      requires Room(s, t) && |s.rt| == MAX_RT_PRIO && Moves(s.task[t], op) && i == Settings(s.task[t], op)
      ensures InfoOk(i) && Step(s, t, op) == Requeue(s, t, i, AtHead(s.task[t], op)) && i.onRq == s.task[t].onRq
      ensures !op.Boost? ==> !AtHead(s.task[t], op)
    {
      SettingsOk(s.task[t], op);
    }

    /** set_user_nice. */
    method SetUserNice(t: Task, nice: int)
      requires Valid() && t in tasks
      modifies this`rt, this`wrr, this`fair, this`hNrRunning, this`nrRunning, t
      ensures Valid() && Abs() == Step(old(Abs()), t, Nice(nice))
      ensures !(-20 <= nice <= 19) ==> Abs() == old(Abs())
      ensures -20 <= nice <= 19 ==> t.staticPrio == 120 + nice
      ensures t.policy == old(t.policy) && t.rtPriority == old(t.rtPriority) && t.schedClass == old(t.schedClass)
      ensures t.onRq == old(t.onRq) && t.resetOnFork == old(t.resetOnFork)
      ensures if RtPolicy(t.policy) then t.normalPrio == old(t.normalPrio) else t.normalPrio == t.staticPrio
      ensures t.prio == if RtPolicy(t.policy) || t.prio < 100 || t.staticPrio == old(t.staticPrio) then old(t.prio)
                        else t.staticPrio
      ensures t.onRq && t.staticPrio != old(t.staticPrio) && !RtPolicy(t.policy) ==> AtEnd(t, false)
    {
      Prepare(t, Nice(nice));
      if t.staticPrio == 120 + nice || nice < -20 || nice > 19 {
        return;
      }
      if RtPolicy(t.policy) {
        Assign(t, t.Abs().(staticPrio := 120 + nice));
        return;
      }
      var prio := if t.prio < MAX_RT_PRIO then t.prio else 120 + nice;
      var i := t.Abs().(staticPrio := 120 + nice, normalPrio := 120 + nice, prio := prio);
      MovesTo(Abs(), t, Nice(nice), i);
      hide *;
      Move(t, i, false);
    }

    /** normalize_task. */
    method NormalizeTask(t: Task, waiter: nat)
      requires Valid() && t in tasks
      modifies this`rt, this`wrr, this`fair, this`hNrRunning, this`nrRunning, t
      ensures Valid() && Abs() == Step(old(Abs()), t, Normalize(waiter))
      ensures t.policy == SCHED_NORMAL && t.rtPriority == 0 && t.normalPrio == t.staticPrio == old(t.staticPrio)
      ensures t.prio == if waiter < t.normalPrio then waiter else t.normalPrio
      ensures t.schedClass == if t.prio < 100 then Rt else Fair
      ensures t.onRq == old(t.onRq) && (t.onRq ==> AtEnd(t, false))
    {
      Prepare(t, Normalize(waiter));
      Move(t, SetScheduler(t.Abs(), SCHED_NORMAL, 0, waiter), false);
    }

    /** try_to_wake_up, as far as activate_task. */
    method Activate(t: Task)
      requires Valid() && t in tasks && !t.onRq
      modifies this`rt, this`wrr, this`fair, this`hNrRunning, this`nrRunning, t
      ensures Valid() && Abs() == Step(old(Abs()), t, WakeUp)
      ensures t.Abs() == old(t.Abs()).(onRq := true) && AtEnd(t, false)
    {
      Prepare(t, WakeUp);
      Assign(t, t.Abs().(onRq := true));
      EnqueueTask(t, false);
    }

    /** A task that is off is on no list. */
    lemma Nowhere(s: State, t: Task)
      requires QueuesOk(s) && t in s.task && !s.task[t].onRq
      ensures (forall p :: 0 <= p < |s.rt| ==> t !in s.rt[p]) && t !in s.wrr && t !in s.fair
    {
      forall p | 0 <= p < |s.rt| ensures t !in s.rt[p] {
        assert ListOk(s, p);
      }
    }

    /** deactivate_task. */
    method Deactivate(t: Task)
      requires Valid() && t in tasks && t.onRq
      modifies this`rt, this`wrr, this`fair, this`hNrRunning, this`nrRunning, t
      ensures Valid() && Abs() == Step(old(Abs()), t, Sleep)
      ensures t.Abs() == old(t.Abs()).(onRq := false)
      ensures (forall p :: 0 <= p < |rt| ==> t !in rt[p]) && t !in wrr && t !in fair
    {
      Prepare(t, Sleep);
      DequeueTask(t);
      Assign(t, t.Abs().(onRq := false));
      Nowhere(Abs(), t);
    }

    /** sched_fork, and the child's place among the tasks. */
    method SchedFork(parent: Task) returns (child: Task)
      requires Valid() && parent in tasks
      modifies this`tasks
      ensures Valid() && fresh(child) && tasks == old(tasks) + {child} && child.Abs() == Forked(parent.Abs())
    {
      ghost var s := Abs();
      child := ForkChild(parent);
      tasks := tasks + {child};
      assert child !in s.task;
      ForkKeeps(s, parent, child);
      assert Abs().task == s.task[child := Forked(s.task[parent])];
    }

    /** pick_next_task; `fairTask` is what the fair class picks. */
    method PickNextTask(fairTask: Task?) returns (p: Choice)
      requires Valid() && (fairTask == null <==> fair == {}) && (fairTask != null ==> fairTask in fair)
      ensures p == Walk(Abs(), rtThrottled, if fairTask == null then Nothing else Next(fairTask))
    {
      var f := if fairTask == null then Nothing else Next(fairTask);
      ShortCut(Abs(), rtThrottled, f);
      if nrRunning == hNrRunning {
        if f != Nothing {
          return f;
        }
      }
      p := PickRt(rt, rtThrottled);
      if p != Nothing {
        return;
      }
      p := PickWrr(wrr);
      if p != Nothing {
        return;
      }
      p := f;
      if p != Nothing {
        return;
      }
      p := Idle;
    }
  }
}
