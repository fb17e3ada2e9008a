/** Whole runs of the real-time run queue: what holds however its operations follow one another. */
module RtRuns {
  import opened Kernel
  import opened RtTypes
  import opened RtState
  import RtOps
  import opened RtTheorems
  import opened RtChanges
  import RtScheduler
  import RtTimer
  import RtEvents

  /** Used times and runtimes come with the events that read them, so that they may be anything. */
  datatype Event =
    | Enqueue(e: RtEntity, head: bool)                  // enqueue_task_rt
    | Dequeue(e: RtEntity)                              // dequeue_task_rt
    | Charge(e: RtEntity, used: map<RtRq, RtScheduler.Usage>, delta: nat)    // update_curr_rt
    | Timer(q: RtRq, usage: RtScheduler.Usage, overrun: nat)                 // do_sched_rt_period_timer
    | Disable                                           // __disable_runtime
    | Enable                                            // __enable_runtime
    | SetPrio(e: RtEntity, prio: nat, normal: nat, head: bool, back: bool)   // rt_mutex_setprio, __setscheduler
    | Requeue(e: RtEntity, head: bool)                  // requeue_task_rt
    | Grow(e: RtEntity, prio: nat, normal: nat)         // a new task, init_tg_rt_entry

  /** The tasks of the tree are the arguments; a task that is to be queued has a real-time priority. */
  ghost predicate Possible(s: State, ev: Event) {
    && Tree(s.t)
    && match ev
       case Enqueue(e, head) => e in s.t.es && e.myQ == null && s.prio[e] < MAX_RT_PRIO
       case Dequeue(e) => e in s.t.es && e.myQ == null
       case Charge(e, used, delta) => e in s.t.es && used.Keys == s.t.qs
       case Timer(q, usage, overrun) => q in s.t.qs && usage.throttled == s.q[q].throttled
       case Disable => true
       case Enable => true
       case SetPrio(e, prio, normal, head, back) => e in s.t.es && e.myQ == null && (back ==> prio < MAX_RT_PRIO)
       case Requeue(e, head) => e in s.t.es
       case Grow(e, prio, normal) => IsNew(s.t, e)
  }

  /** __disable_runtime changes runtimes only. */
  ghost function After(s: State, ev: Event): (r: State)
    requires Possible(s, ev)
    ensures Tree(r.t)
  {
    match ev
    case Enqueue(e, head) => RtOps.Enqueue(s, e, head)
    case Dequeue(e) => RtOps.Dequeue(s, e)
    case Charge(e, used, delta) => RtScheduler.ThrottledBy(s, used, e, delta)
    case Timer(q, usage, overrun) =>
      var r := RtTimer.Refill(usage, overrun, s.q[q].nrRunning != 0, Held(s.q[q]));
      RtTimer.Timed(s, q, usage.throttled && !r.0.throttled, r.1)
    case Disable => s
    case Enable => Cleared(s, s.t.qs)
    case SetPrio(e, prio, normal, head, back) => RtEvents.Reprioritised(s, e, prio, normal, head, back)
    case Requeue(e, head) => MoveUp(s, Chain(s.t, e), head)
    case Grow(e, prio, normal) => RtChanges.Grow(s, e, prio, normal)
  }

  /** What an event may make missing: nothing, but for __enable_runtime the groups whose flags it clears. */
  ghost function Freed(s: State, ev: Event): set<RtEntity> {
    if ev.Enable? then StoppedIn(s, s.t.qs) else {}
  }

  lemma AfterSound(s: State, ev: Event)
    requires Possible(s, ev) && Sound(s)
    ensures Sound(After(s, ev)) && Missing(After(s, ev)) <= Missing(s) + Freed(s, ev)
  {
    hide Sound;
    hide Missing;
    hide Tree;
    hide Chain;
    hide Wf;
    hide RtOps.Enqueue;
    hide RtOps.Dequeue;
    hide RtOps.Members;
    hide RtTimer.Timed;
    hide RtTimer.Refill;
    hide RtEvents.Reprioritised;
    hide RtScheduler.ThrottledBy;
    hide MoveUp;
    hide RtChanges.Grow;
    match ev {
      case Enqueue(e, head) =>
        RtEvents.SoundButPath(s, Chain(s.t, e));
        RtOps.EnqueueSound(s, e, head);
      case Dequeue(e) =>
        RtEvents.SoundButPath(s, Chain(s.t, e));
        RtOps.DequeueSound(s, e);
      case Charge(e, used, delta) => RtScheduler.ThrottledAll(s, used, e, delta);
      case Timer(q, usage, overrun) => RtTimer.RefillDecides(s, q, usage, overrun);
      case Disable =>
      case Enable => ClearedMissing(s, s.t.qs);
      case SetPrio(e, prio, normal, head, back) => RtEvents.ReprioritisedSound(s, e, prio, normal, head, back);
      case Requeue(e, head) => MoveUpKeeps(s, Chain(s.t, e), head);
      case Grow(e, prio, normal) => GrowSound(s, e, prio, normal);
    }
  }

  ghost predicate IsRun(s: State, es: seq<Event>)
    decreases |es|
  {
    es == [] || (Possible(s, es[0]) && IsRun(After(s, es[0]), es[1..]))
  }

  ghost function End(s: State, es: seq<Event>): State
    requires IsRun(s, es)
    decreases |es|
  {
    if es == [] then s else End(After(s, es[0]), es[1..])
  }

  /** All that a run may make missing. */
  ghost function FreedAlong(s: State, es: seq<Event>): set<RtEntity>
    requires IsRun(s, es)
    decreases |es|
  {
    if es == [] then {} else Freed(s, es[0]) + FreedAlong(After(s, es[0]), es[1..])
  }

  /** In every run a queued group may run, and all lists, bitmaps, counters and cached priorities agree; the
      groups that could run and are not queued are among those that some __enable_runtime has freed. */
  lemma {:induction false} RunSound(s: State, es: seq<Event>)
    requires Sound(s) && IsRun(s, es)
    ensures Sound(End(s, es)) && Missing(End(s, es)) <= Missing(s) + FreedAlong(s, es)
    decreases |es|
  {
    if es != [] {
      AfterSound(s, es[0]);
      hide Sound;
      hide Missing;
      hide Possible;
      hide After;
      hide Freed;
      RunSound(After(s, es[0]), es[1..]);
    }
  }

  /** While no CPU comes back, a group is queued iff it may run, in every state of every run. */
  lemma {:induction false} RunValid(s: State, es: seq<Event>)
    requires Valid(s) && IsRun(s, es) && forall i :: 0 <= i < |es| ==> !es[i].Enable?
    ensures Valid(End(s, es))
    decreases |es|
  {
    if es != [] {
      SoundIsValid(s);
      AfterSound(s, es[0]);
      SoundIsValid(After(s, es[0]));
      hide Valid;
      hide Sound;
      hide Missing;
      hide Possible;
      hide After;
      RunValid(After(s, es[0]), es[1..]);
    }
  }
}
