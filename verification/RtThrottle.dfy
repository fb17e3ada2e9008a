/** How much real-time tasks can run: throttling on a single CPU without groups. */
module RtThrottle {
  import opened Kernel
  import opened RtAccounting

  /** 0 < runtime < period of the global bandwidth; `largest` is the longest time charged at once. */
  datatype Limits = Limits(runtime: nat, period: nat, largest: nat)

  ghost predicate Throttling(l: Limits) {
    0 < l.runtime < l.period && l.runtime != RUNTIME_INF
  }

  datatype State = State(
    time: nat,         // rt_rq->rt_time
    throttled: bool,   // rt_rq->rt_throttled
    resched: bool,     // TIF_NEED_RESCHED of the running task
    rtRuns: bool,      // the running task is a real-time task
    total: nat,        // everything ever charged
    late: nat,         // what has been charged since the queue was throttled, if it is
    periods: nat)      // everything the period timer has reported

  const START := State(0, false, false, false, 0, 0, 0)

  datatype Event =
    | Charge(delta: nat)                    // update_curr_rt, from a tick, a dequeue or a yield
    | Timer(overrun: nat, ready: bool)      // do_sched_rt_period_timer; real-time tasks may be waiting
    | Schedule(delta: nat, ready: bool)     // put_prev_task, and the choice of the next task
    | ChangeClass(rt: bool)                 // the running task becomes a real-time task, or ceases to be one

  /** update_curr_rt. */
  function Charged(s: State, l: Limits, delta: nat): State {
    if !s.rtRuns then s
    else
      var (throttled, time) := Exceed(s.throttled, s.time + delta, l.runtime, l.runtime, l.period);
      s.(time := time, throttled := throttled, resched := s.resched || throttled, total := s.total + delta,
         late := if s.throttled then s.late + delta else 0)
  }

  /** do_sched_rt_period_timer, for the one queue there is. */
  function Refilled(s: State, l: Limits, overrun: nat, ready: bool): State {
    var r := s.(periods := s.periods + overrun);
    if s.time != 0 then
      var time := Replenished(s.time, overrun, l.runtime);
      if s.throttled && time < l.runtime then
        r.(time := time, throttled := false, late := 0, resched := s.resched || ready)
      else r.(time := time)
    else if ready && !s.throttled then r.(resched := true)
    else r
  }

  /** A throttled real-time queue is passed over by _pick_next_task_rt. */
  function Scheduled(s: State, l: Limits, delta: nat, ready: bool): State {
    var r := Charged(s, l, delta);
    r.(rtRuns := ready && !r.throttled, resched := false)
  }

  function Step(s: State, l: Limits, e: Event): State {
    match e
    case Charge(delta) => Charged(s, l, delta)
    case Timer(overrun, ready) => Refilled(s, l, overrun, ready)
    case Schedule(delta, ready) => Scheduled(s, l, delta, ready)
    case ChangeClass(rt) => s.(rtRuns := rt)
  }

  /** No charge is longer than the longest. */
  ghost predicate Allowed(l: Limits, e: Event) {
    match e
    case Charge(delta) => delta <= l.largest
    case Schedule(delta, ready) => delta <= l.largest
    case _ => true
  }

  /** A task that has to be rescheduled because of throttling is next charged when it is switched away from, and
      nobody becomes a real-time task while these are throttled. */
  ghost predicate Prompt(s: State, e: Event) {
    match e
    case Charge(delta) => !(s.resched && s.throttled)
    case ChangeClass(rt) => !(rt && s.throttled)
    case _ => true
  }

  function Run(s: State, l: Limits, es: seq<Event>): State {
    if es == [] then s else Step(Run(s, l, es[..|es| - 1]), l, es[|es| - 1])
  }

  ghost predicate AllowedRun(l: Limits, es: seq<Event>) {
    forall i :: 0 <= i < |es| ==> Allowed(l, es[i])
  }

  ghost predicate PromptRun(s: State, l: Limits, es: seq<Event>) {
    forall i :: 0 <= i < |es| ==> Prompt(Run(s, l, es[..i]), es[i])
  }

  // ---------------------------------------------------------------- the bound

  ghost predicate Inv(s: State, l: Limits) {
    && s.total <= s.time + s.periods * l.runtime
    && if s.throttled then l.runtime <= s.time <= l.runtime + l.largest + s.late else s.time <= l.runtime && s.late == 0
  }

  lemma PaidBack(s: State, l: Limits, overrun: nat)
    ensures (s.periods + overrun) * l.runtime == s.periods * l.runtime + overrun * l.runtime
  {
  }

  lemma {:induction false} StepKeeps(s: State, l: Limits, e: Event)
    requires Throttling(l) && Inv(s, l) && Allowed(l, e)
    ensures Inv(Step(s, l, e), l)
  {
    if e.Timer? {
      PaidBack(s, l, e.overrun);
    }
  }

  lemma {:induction false} RunKeeps(s: State, l: Limits, es: seq<Event>)
    requires Throttling(l) && Inv(s, l) && AllowedRun(l, es)
    ensures Inv(Run(s, l, es), l)
  {
    if es != [] {
      var init := es[..|es| - 1];
      hide Inv;
      hide Step;
      RunKeeps(s, l, init);
      StepKeeps(Run(s, l, init), l, es[|es| - 1]);
    }
  }

  /** In any run whose timer has reported K periods, real-time tasks are charged at most K + 1 runtimes, one
      charge that crosses the limit, and what is charged after that and before the queue is unthrottled. */
  lemma {:induction false} ThrottlingBound(l: Limits, es: seq<Event>)
    requires Throttling(l) && AllowedRun(l, es)
    ensures var s := Run(START, l, es); s.total <= (s.periods + 1) * l.runtime + l.largest + s.late
  {
    RunKeeps(START, l, es);
    PaidBack(Run(START, l, es), l, 1);
  }

  ghost predicate PromptInv(s: State, l: Limits) {
    s.late <= l.largest && (s.throttled && s.rtRuns ==> s.resched && s.late == 0)
  }

  lemma {:induction false} PromptKeeps(s: State, l: Limits, es: seq<Event>)
    requires Throttling(l) && Inv(s, l) && PromptInv(s, l) && AllowedRun(l, es) && PromptRun(s, l, es)
    ensures PromptInv(Run(s, l, es), l)
  {
    if es != [] {
      var init, e := es[..|es| - 1], es[|es| - 1];
      assert Prompt(Run(s, l, init), e);
      forall i | 0 <= i < |init| ensures Prompt(Run(s, l, init[..i]), init[i]) {
        assert init[..i] == es[..i] && Prompt(Run(s, l, es[..i]), es[i]);
      }
      PromptKeeps(s, l, init);
      RunKeeps(s, l, init);
    }
  }

  /** When rescheduling is prompt, that is at most the one charge made while switching away. */
  lemma {:induction false} PromptBound(l: Limits, es: seq<Event>)
    requires Throttling(l) && AllowedRun(l, es) && PromptRun(START, l, es)
    ensures var s := Run(START, l, es); s.total <= (s.periods + 1) * l.runtime + 2 * l.largest
  {
    ThrottlingBound(l, es);
    PromptKeeps(START, l, es);
  }

  /** Until the timer fires, a throttled queue gets nothing more once it has been switched away from, unless the
      running task is made a real-time task. */
  lemma {:induction false} ThrottledGetsNothing(s: State, l: Limits, es: seq<Event>)
    requires s.throttled && !s.rtRuns
    requires forall i :: 0 <= i < |es| ==> !es[i].Timer? && es[i] != ChangeClass(true)
    ensures var r := Run(s, l, es); r.total == s.total && r.time == s.time && r.throttled && !r.rtRuns
  {
    if es != [] {
      ThrottledGetsNothing(s, l, es[..|es| - 1]);
    }
  }

  /** ... but is throttled no longer than it takes to pay back what it has used beyond a runtime. */
  lemma ThrottledNotForLong(s: State, l: Limits, overrun: nat, ready: bool)
    requires Throttling(l) && Inv(s, l) && s.throttled
    ensures var r := Refilled(s, l, overrun, ready);
            && (!r.throttled <==> s.time < (overrun + 1) * l.runtime)
            && (l.largest + s.late < overrun * l.runtime ==> !r.throttled)
            && (!r.throttled && ready ==> r.resched)
  {
    assert (overrun + 1) * l.runtime == overrun * l.runtime + l.runtime;
    var paid := Replenished(s.time, overrun, l.runtime);
  }

  // ---------------------------------------------------------------- the bound is reached

  lemma {:induction false} RunMore(l: Limits, es: seq<Event>, e: Event)
    requires AllowedRun(l, es) && PromptRun(START, l, es) && Allowed(l, e) && Prompt(Run(START, l, es), e)
    ensures AllowedRun(l, es + [e]) && PromptRun(START, l, es + [e])
    ensures Run(START, l, es + [e]) == Step(Run(START, l, es), l, e)
  {
    hide Step;
    var more := es + [e];
    assert more[..|es|] == es;
    forall i | 0 <= i < |more| ensures Prompt(Run(START, l, more[..i]), more[i]) {
      assert i < |es| ==> more[..i] == es[..i] && Prompt(Run(START, l, es[..i]), es[i]);
    }
  }

  /** A real-time task that runs, its queue not throttled. */
  ghost predicate Running(s: State) {
    s.rtRuns && !s.throttled && !s.resched && s.late == 0
  }

  /** Run for n times one unit. */
  lemma {:induction false} RunFor(l: Limits, es: seq<Event>, n: nat) returns (r: seq<Event>)
    requires Throttling(l) && l.largest >= 1 && AllowedRun(l, es) && PromptRun(START, l, es)
    requires Running(Run(START, l, es)) && Run(START, l, es).time + n <= l.runtime
    ensures AllowedRun(l, r) && PromptRun(START, l, r)
    ensures var s := Run(START, l, es); Run(START, l, r) == s.(time := s.time + n, total := s.total + n)
  {
    r := es;
    if n > 0 {
      r := RunFor(l, es, n - 1);
      RunMore(l, r, Charge(1));
      r := r + [Charge(1)];
    }
  }

  /** K times: run up to the limit, and be replenished. */
  lemma {:induction false} RunPeriods(l: Limits, k: nat) returns (es: seq<Event>)
    requires Throttling(l) && l.largest >= 1
    ensures AllowedRun(l, es) && PromptRun(START, l, es)
    ensures Run(START, l, es) == START.(rtRuns := true, total := k * l.runtime, periods := k)
  {
    if k == 0 {
      RunMore(l, [], Schedule(0, true));
      es := [] + [Schedule(0, true)];
    } else {
      es := RunPeriods(l, k - 1);
      es := RunFor(l, es, l.runtime);
      OnePaid(l.runtime);
      RunMore(l, es, Timer(1, false));
      es := es + [Timer(1, false)];
      assert k * l.runtime == (k - 1) * l.runtime + l.runtime;
    }
  }

  lemma OnePaid(runtime: nat)
    ensures Replenished(runtime, 1, runtime) == 0
  {
  }

  /** For all limits and any number of periods there is a run that reaches the bound: run up to the limit in
      every period, cross it in the last, switch away. */
  lemma BoundReached(l: Limits, k: nat) returns (es: seq<Event>)
    requires Throttling(l) && l.largest >= 1
    ensures AllowedRun(l, es) && PromptRun(START, l, es)
    ensures var s := Run(START, l, es);
            s.periods == k && s.total == (k + 1) * l.runtime + 2 * l.largest == (k + 1) * l.runtime + l.largest + s.late
  {
    es := RunPeriods(l, k);
    es := RunFor(l, es, l.runtime);
    RunMore(l, es, Charge(l.largest));
    es := es + [Charge(l.largest)];
    RunMore(l, es, Schedule(l.largest, true));
    es := es + [Schedule(l.largest, true)];
    assert (k + 1) * l.runtime == k * l.runtime + l.runtime;
  }

  // ---------------------------------------------------------------- the queue itself

  /** The real-time queue of the CPU and the task that runs on it. */
  class Cpu {
    var rtTime: nat
    var rtThrottled: bool
    var needResched: bool
    var rtRuns: bool
    const runtime: nat          // def_rt_bandwidth.rt_runtime, sysctl_sched_rt_runtime
    const period: nat
    ghost var total: nat
    ghost var late: nat
    ghost var periods: nat

    constructor (runtime: nat, period: nat)
      ensures this.runtime == runtime && this.period == period && Abs() == START
    {
      this.runtime, this.period := runtime, period;
      rtTime, rtThrottled, needResched, rtRuns, total, late, periods := 0, false, false, false, 0, 0, 0;
    }

    ghost function Abs(): State
      reads this
    {
      State(rtTime, rtThrottled, needResched, rtRuns, total, late, periods)
    }

    /** sched_rt_runtime_exceeded. */
    method RuntimeExceeded() returns (exceeded: bool)
      modifies this`rtTime, this`rtThrottled
      ensures (rtThrottled, rtTime) == Exceed(old(rtThrottled), old(rtTime), runtime, runtime, period)
      ensures exceeded == rtThrottled
    {
      if rtThrottled {
        return rtThrottled;
      }
      if runtime >= period {
        return false;
      }
      if runtime == RUNTIME_INF {
        return false;
      }
      if rtTime > runtime {
        if runtime != 0 {
          rtThrottled := true;
        } else {
          rtTime := 0;
        }
        if rtThrottled {
          return true;
        }
      }
      return false;
    }

    /** update_curr_rt. */
    method UpdateCurrRt(delta: nat, ghost l: Limits)
      requires Throttling(l) && l.runtime == runtime && l.period == period
      modifies this
      ensures Abs() == Charged(old(Abs()), l, delta)
    {
      if !rtRuns {
        return;
      }
      total, late := total + delta, if rtThrottled then late + delta else 0;
      if runtime != RUNTIME_INF {
        rtTime := rtTime + delta;
        var exceeded := RuntimeExceeded();
        if exceeded {
          needResched := true;
        }
      }
    }

    /** do_sched_rt_period_timer. */
    method PeriodTimer(overrun: nat, ready: bool, ghost l: Limits)
      requires l.runtime == runtime && l.period == period
      modifies this
      ensures Abs() == Refilled(old(Abs()), l, overrun, ready)
    {
      var enqueue := false;
      if rtTime != 0 {
        var paid := overrun * runtime;
        assert overrun * runtime >= 0;
        rtTime := rtTime - if rtTime <= paid then rtTime else paid;
        if rtThrottled && rtTime < runtime {
          rtThrottled, enqueue, late := false, true, 0;
        }
      } else if ready {
        if !rtThrottled {
          enqueue := true;
        }
      }
      if enqueue && ready {
        needResched := true;
      }
      periods := periods + overrun;
    }

    /** The running task's sched_class is changed, by __setscheduler or rt_mutex_setprio. */
    method ChangeRunning(rt: bool, ghost l: Limits)
      modifies this`rtRuns
      ensures Abs() == Step(old(Abs()), l, ChangeClass(rt))
    {
      rtRuns := rt;
    }

    /** schedule: put_prev_task_rt, then _pick_next_task_rt. */
    method Schedule(delta: nat, ready: bool, ghost l: Limits)
      requires Throttling(l) && l.runtime == runtime && l.period == period
      modifies this
      ensures Abs() == Scheduled(old(Abs()), l, delta, ready)
    {
      UpdateCurrRt(delta, l);
      rtRuns := ready && !rtThrottled;
      needResched := false;
    }
  }
}
