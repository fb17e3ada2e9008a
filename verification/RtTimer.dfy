/** The period timer replenishes a group and puts it back; a CPU that comes back has its throttle flags cleared
    without that. */
module RtTimer {
  import opened Kernel
  import opened RtAccounting
  import opened RtTypes
  import opened Lists
  import opened RtState
  import RtOps
  import opened RtTheorems
  import opened RtChanges
  import opened RtRunqueue
  import opened RtScheduler

  // ---------------------------------------------------------------- the period timer

  /** What the period timer makes of a queue's flag and used time, and whether it asks for the group. */
  function Refill(u: Usage, overrun: nat, members: bool, held: bool): (Usage, bool) {
    if u.time != 0 then
      var left := Replenished(u.time, overrun, u.runtime);
      if u.throttled && left < u.runtime then (u.(throttled := false, time := left), true)
      else (u.(time := left), false)
    else (u, members && !held)
  }

  /** What the timer makes of the run queue. */
  ghost function Unflagged(s: State, q: RtRq, cleared: bool): (r: State)
    requires q in s.q
    ensures r.t == s.t
  {
    if cleared then SetThrottled(s, q, false) else s
  }

  ghost function Timed(s: State, q: RtRq, cleared: bool, enqueue: bool): (r: State)
    requires Tree(s.t) && q in s.t.qs
    ensures r.t == s.t
  {
    if enqueue then EnqueueGroup(Unflagged(s, q, cleared), q) else Unflagged(s, q, cleared)
  }

  /** The flag of one queue keeps at most its own group off, and that one then goes back. */
  lemma StoppedOwn(s: State, q: RtRq)
    requires Tree(s.t) && Sound(s) && q in s.t.qs
    ensures forall e :: e in StoppedIn(s, {q}) ==> GoesBack(s, q) && e == s.t.tgSe[q]
    ensures !GoesBack(s, q) ==> StoppedIn(s, {q}) == {}
  {
    forall e | e in StoppedIn(s, {q}) ensures GoesBack(s, q) && e == s.t.tgSe[q] {
      assert Fits(s, e);
    }
  }

  lemma AddDrop<T>(m: set<T>, x: set<T>, c: set<T>)
    requires x <= c
    ensures m + x - c == m - c
  {
  }

  lemma UnflaggedSound(s: State, q: RtRq, cleared: bool)
    requires Tree(s.t) && Sound(s) && q in s.t.qs
    ensures Sound(Unflagged(s, q, cleared)) && GoesBack(Unflagged(s, q, cleared), q) == GoesBack(s, q)
    ensures Missing(Unflagged(s, q, cleared)) == Missing(s) + if cleared then StoppedIn(s, {q}) else {}
  {
    hide Sound;
    hide Missing;
    hide Tree;
    hide Cleared;
    hide StoppedIn;
    if cleared {
      var none: set<RtRq> := {};
      ClearedNone(s);
      ClearedMore(s, none, q);
      ClearedMissing(s, none + {q});
      assert none + {q} == {q};
    }
  }

  /** The timer queues no group that must not be, and makes none missing; and when it asks for its own group,
      that is not missing afterwards. */
  lemma {:induction false} TimedSound(s: State, q: RtRq, cleared: bool, enqueue: bool)
    requires Tree(s.t) && Sound(s) && q in s.t.qs && (cleared ==> enqueue)
    ensures Sound(Unflagged(s, q, cleared)) && Sound(Timed(s, q, cleared, enqueue))
    ensures Missing(Timed(s, q, cleared, enqueue))
         == if enqueue && GoesBack(s, q) then Missing(s) - RtOps.Members(Chain(s.t, s.t.tgSe[q])) else Missing(s)
    ensures enqueue ==> forall e :: e in Own(s.t, q) ==> e !in Missing(Timed(s, q, cleared, enqueue))
  {
    if q in s.t.tgSe {
      FootInChain(s.t, s.t.tgSe[q]);
    }
    hide Sound;
    hide Missing;
    hide Tree;
    hide Chain;
    hide Unflagged;
    hide StoppedIn;
    hide EnqueueGroup;
    hide RtOps.Members;
    hide GoesBack;
    hide Wf;
    UnflaggedSound(s, q, cleared);
    if enqueue {
      StoppedOwn(s, q);
      EnqueueGroupSound(Unflagged(s, q, cleared), q);
      if GoesBack(s, q) {
        AddDrop(Missing(s), StoppedIn(s, {q}), RtOps.Members(Chain(s.t, s.t.tgSe[q])));
      }
    }
  }

  lemma RefillIs(u: Usage, overrun: nat, members: bool, held: bool)
    ensures var r := Refill(u, overrun, members, held);
            && (u.throttled && !r.0.throttled ==> r.1)
            && r.1 == if u.time == 0 then members && !held else u.throttled && !r.0.throttled
    ensures u.time == 0 ==> Refill(u, overrun, members, held).0 == u
  {
  }

  /** In figures: up to one runtime is paid back for each period, and the flag is cleared iff less than one
      runtime is then left; a queue without used time keeps its flag. */
  lemma RefillFigures(u: Usage, overrun: nat, members: bool, held: bool)
    ensures var r := Refill(u, overrun, members, held);
            && r.0.time == (if u.time <= overrun * u.runtime then 0 else u.time - overrun * u.runtime)
            && (r.0.throttled <==> u.throttled && (u.time == 0 || u.time >= (overrun + 1) * u.runtime))
            && r.0.runtime == u.runtime
            && (u.time == 0 ==> (r.1 <==> members && !held))
            && (u.time != 0 ==> (r.1 <==> u.throttled && u.time < (overrun + 1) * u.runtime))
  {
    var paid := overrun * u.runtime;
    assert paid >= 0 && (overrun + 1) * u.runtime == paid + u.runtime;
  }

  lemma BackIsOn(s: State, q: RtRq)
    requires Tree(s.t) && Sound(s) && q in s.t.qs
    ensures EnqueueGroup(s, q).q[q] == s.q[q]
    ensures q in s.t.tgSe && s.q[q].nrRunning != 0 && !Held(s.q[q]) ==> s.t.tgSe[q] in EnqueueGroup(s, q).on
  {
    MissingIs(EnqueueGroup(s, q), q);
    EnqueueGroupSound(s, q);
    if GoesBack(s, q) {
      RtOps.EnqueueSound(s, s.t.tgSe[q], false);
      OwnQueueKept(s.t, s.t.tgSe[q]);
    }
  }

  /** A group that its timer asks for is queued afterwards if it is not empty, and its own queue is left alone. */
  lemma {:induction false} TimedIsOn(s: State, q: RtRq, cleared: bool, enqueue: bool)
    requires Tree(s.t) && Sound(s) && q in s.t.qs && (cleared ==> enqueue)
    ensures var r := Timed(s, q, cleared, enqueue);
            && r.q[q].nrRunning == s.q[q].nrRunning
            && (enqueue && q in s.t.tgSe && s.q[q].nrRunning != 0 && (cleared || !Held(s.q[q])) ==>
                  s.t.tgSe[q] in r.on)
  {
    UnflaggedSound(s, q, cleared);
    TimedIs(s, q, cleared, enqueue);
    var u := Unflagged(s, q, cleared);
    BackIsOn(u, q);
    hide EnqueueGroup;
    hide Timed;
    hide Sound;
    hide Tree;
    hide Missing;
    hide StoppedIn;
  }

  lemma TimedIs(s: State, q: RtRq, cleared: bool, enqueue: bool)
    requires Tree(s.t) && q in s.t.qs
    ensures Timed(s, q, cleared, enqueue)
         == if enqueue then EnqueueGroup(Unflagged(s, q, cleared), q) else Unflagged(s, q, cleared)
  {
  }

  lemma MissingIs(s: State, q: RtRq)
    requires Tree(s.t) && q in s.t.qs
    ensures q in s.t.tgSe ==> (s.t.tgSe[q] in Missing(s) <==> GoesBack(s, q) && !Held(s.q[q]))
    ensures GoesBack(s, q) ==> q in s.t.tgSe && s.q[q].nrRunning != 0
    ensures q in s.t.tgSe ==> s.t.tgSe[q] in Own(s.t, q)
  {
  }

  /** The timer's decision: its own group stays missing iff used time is left and the flag is not cleared. */
  lemma {:induction false} RefillDecides(s: State, q: RtRq, u: Usage, overrun: nat)
    requires Tree(s.t) && Sound(s) && q in s.t.qs && u.throttled == s.q[q].throttled
    ensures var r := Refill(u, overrun, s.q[q].nrRunning != 0, Held(s.q[q]));
            var cleared := u.throttled && !r.0.throttled;
            var after := Timed(s, q, cleared, r.1);
            && Sound(Unflagged(s, q, cleared)) && Sound(after)
            && after == (if r.1 then EnqueueGroup(Unflagged(s, q, cleared), q) else Unflagged(s, q, cleared))
            && Missing(after)
            == (if r.1 && GoesBack(s, q) then Missing(s) - RtOps.Members(Chain(s.t, s.t.tgSe[q])) else Missing(s))
            && (q in s.t.tgSe ==>
                  (s.t.tgSe[q] in Missing(after) <==> s.t.tgSe[q] in Missing(s) && u.time != 0 && !cleared))
  {
    var r := Refill(u, overrun, s.q[q].nrRunning != 0, Held(s.q[q]));
    RefillIs(u, overrun, s.q[q].nrRunning != 0, Held(s.q[q]));
    MissingIs(s, q);
    TimedIs(s, q, u.throttled && !r.0.throttled, r.1);
    hide *;
    TimedSound(s, q, u.throttled && !r.0.throttled, r.1);
  }

  /** The accounting part of do_sched_rt_period_timer. */
  method Replenish(cpu: Cpu, q: RtRq, overrun: nat, ghost s: State) returns (enqueue: bool)
    requires cpu.Abs() == s && q in cpu.t.qs
    modifies q`throttled, q`rtTime
    ensures (Used(q), enqueue) == Refill(old(Used(q)), overrun, q.nrRunning != 0, old(Throttled(q)))
    ensures cpu.Abs() == Unflagged(s, q, old(q.throttled) && !q.throttled)
  {
    enqueue := false;
    if q.rtTime != 0 {
      q.rtTime := Replenished(q.rtTime, overrun, q.rtRuntime);
      assert cpu.Abs() == s;
      if q.throttled && q.rtTime < q.rtRuntime {
        SetFlag(cpu, q, false, s);
        enqueue := true;
      }
    } else if q.nrRunning != 0 {
      if !Throttled(q) {
        enqueue := true;
      }
    }
  }

  lemma ThrottledIs(q: RtRq)
    ensures Throttled(q) == (q.throttled && q.nrBoosted == 0)
  {
  }

  lemma GroupIs(cpu: Cpu, q: RtRq, s: State)
    requires cpu.Rep() && cpu.Abs() == s && q in cpu.t.qs
    ensures Tree(s.t) && s.t == cpu.t && s.t.tgSe == cpu.tgSe && q in s.q && s.q[q].nrRunning == q.nrRunning
    ensures q in cpu.tgSe ==> (cpu.tgSe[q].linked <==> cpu.tgSe[q] in s.on)
  {
    assert s.q[q] == Snap(q);
  }

  /** What that means for the fields: one runtime is paid back for each period, the flag is cleared iff less than
      one runtime is left, and a group that is then not empty is queued. */
  twostate lemma TimerFields(q: RtRq, new cpu: Cpu, new overrun: nat, new s: SoundState, new enqueue: bool)
    requires cpu.Rep() && s.t == cpu.t && q in cpu.t.qs && s.q[q] == old(Snap(q))
    requires cpu.Abs() == Timed(s, q, old(q.throttled) && !q.throttled, enqueue)
    requires (Used(q), enqueue) == Refill(old(Used(q)), overrun, old(q.nrRunning) != 0, old(Throttled(q)))
    ensures q.rtTime == if old(q.rtTime) <= overrun * q.rtRuntime then 0 else old(q.rtTime) - overrun * q.rtRuntime
    ensures q.throttled
       <==> old(q.throttled) && (old(q.rtTime) == 0 || old(q.rtTime) >= (overrun + 1) * q.rtRuntime)
    ensures q.nrRunning == old(q.nrRunning)
    ensures (if old(q.rtTime) == 0 then !q.throttled || old(q.nrBoosted) != 0 else old(q.throttled) && !q.throttled) ==>
              q.nrRunning != 0 && q in cpu.tgSe ==> cpu.tgSe[q].linked
  {
    RefillFigures(old(Used(q)), overrun, old(q.nrRunning) != 0, old(Throttled(q)));
    GroupIs(cpu, q, Timed(s, q, old(q.throttled) && !q.throttled, enqueue));
    hide Cpu.Abs;
    hide Refill;
    hide Timed;
    hide Sound;
    TimedIsOn(s, q, old(q.throttled) && !q.throttled, enqueue);
  }

  /** do_sched_rt_period_timer for the queue of one group; idle when nothing is left for the timer to do.
      It works from any state in which no group is queued that must not be. */
  method PeriodTimer(cpu: Cpu, q: RtRq, overrun: nat, bandwidthEnabled: bool, ghost s: SoundState)
    returns (idle: bool, ghost enqueue: bool)
    requires cpu.Rep() && cpu.Abs() == s && q in cpu.t.qs
    modifies cpu`leaf, cpu.t.es`linked, cpu.t.es`back, q`throttled, q`rtTime
    modifies cpu.t.qs`bitmap, cpu.t.qs`queue, cpu.t.qs`nrRunning, cpu.t.qs`highestPrio, cpu.t.qs`nrBoosted
    ensures (Used(q), enqueue) == Refill(old(Used(q)), overrun, old(q.nrRunning) != 0, old(Throttled(q)))
    ensures cpu.Abs() == Timed(s, q, old(q.throttled) && !q.throttled, enqueue)
    ensures idle == ((q.rtTime == 0 && old(q.nrRunning) == 0)
                     || (!q.throttled && (!bandwidthEnabled || q.bwRuntime == RUNTIME_INF)))
    ensures Sound(cpu.Abs())
    ensures Missing(cpu.Abs())
         == if enqueue && GoesBack(s, q) then Missing(s) - RtOps.Members(Chain(s.t, s.t.tgSe[q])) else Missing(s)
    ensures q in s.t.tgSe ==>
              (s.t.tgSe[q] in Missing(cpu.Abs())
               <==> s.t.tgSe[q] in Missing(s) && old(q.rtTime) != 0 && !(old(q.throttled) && !q.throttled))
    // the same in the fields of the queue
    ensures q.rtTime == if old(q.rtTime) <= overrun * q.rtRuntime then 0 else old(q.rtTime) - overrun * q.rtRuntime
    ensures q.throttled
       <==> old(q.throttled) && (old(q.rtTime) == 0 || old(q.rtTime) >= (overrun + 1) * q.rtRuntime)
    ensures q.nrRunning == old(q.nrRunning)
    ensures (if old(q.rtTime) == 0 then !q.throttled || old(q.nrBoosted) != 0 else old(q.throttled) && !q.throttled) ==>
              q.nrRunning != 0 && q in cpu.tgSe ==> cpu.tgSe[q].linked
  {
    hide *;
    UsedIs(q);
    Placed(cpu, q, s);
    RefillDecides(s, q, Used(q), overrun);
    var members := q.nrRunning != 0;
    var ask := Replenish(cpu, q, overrun, s);
    UsedIs(q);
    enqueue := ask;
    idle := !members && q.rtTime == 0;
    if !q.throttled && (!bandwidthEnabled || q.bwRuntime == RUNTIME_INF) {
      idle := true;
    }
    if ask {
      SchedRtRqEnqueue(cpu, q, cpu.Abs());
    }
    TimerFields(q, cpu, overrun, s, enqueue);
  }

  /** All timers together, run on a CPU whose queues have no flag set and no time used. */
  ghost function TimedEach(s: State, w: seq<RtRq>, k: nat): (r: State)
    requires Tree(s.t) && k <= |w| && forall q :: q in w ==> q in s.t.qs
    ensures r.t == s.t
  {
    if k == 0 then s
    else
      var u := TimedEach(s, w, k - 1);
      Timed(u, w[k - 1], false, Runnable(u.q[w[k - 1]]))
  }

  /** Each timer brings back its own group, and none takes one away. */
  lemma {:induction false} TimersRestore(s: State, w: seq<RtRq>, k: nat)
    requires Tree(s.t) && Sound(s) && k <= |w| && forall q :: q in w ==> q in s.t.qs
    ensures var r := TimedEach(s, w, k);
            && Sound(r) && Missing(r) <= Missing(s)
            && forall i, e :: 0 <= i < k && e in Own(s.t, w[i]) ==> e !in Missing(r)
  {
    hide Sound;
    hide Missing;
    hide Tree;
    hide Timed;
    hide Wf;
    if k > 0 {
      TimersRestore(s, w, k - 1);
      var u := TimedEach(s, w, k - 1);
      TimedRunnable(u, w[k - 1]);
    }
  }

  lemma TimedRunnable(s: State, q: RtRq)
    requires Tree(s.t) && Sound(s) && q in s.t.qs
    ensures var r := Timed(s, q, false, Runnable(s.q[q]));
            Sound(r) && Missing(r) <= Missing(s) && forall e :: e in Own(s.t, q) ==> e !in Missing(r)
  {
    MissingIs(s, q);
    hide Sound;
    hide Tree;
    hide Timed;
    hide Missing;
    hide Chain;
    TimedSound(s, q, false, Runnable(s.q[q]));
  }

  /** When every group's timer has found no used time, the invariant of the whole tree holds again. */
  lemma {:induction false} AllTimersRestore(s: State, w: seq<RtRq>)
    requires Tree(s.t) && Sound(s) && forall q :: q in s.t.qs <==> q in w
    ensures Valid(TimedEach(s, w, |w|))
  {
    TimersRestore(s, w, |w|);
    var r := TimedEach(s, w, |w|);
    hide TimedEach;
    forall e | e in r.t.es && e.myQ != null ensures e !in Missing(r) {
      var i :| 0 <= i < |w| && w[i] == e.myQ;
      assert e in Own(s.t, w[i]);
    }
    SoundIsValid(r);
  }

  // ---------------------------------------------------------------- a CPU comes back

  /** One round of the loop of __enable_runtime: the flag is cleared, and the group not put back. */
  method EnableQueue(cpu: Cpu, q: RtRq, ghost s: State)
    requires cpu.Abs() == s && q in cpu.t.qs
    modifies q`throttled, q`rtTime, q`rtRuntime
    ensures Used(q) == Usage(false, 0, q.bwRuntime) && cpu.Abs() == SetThrottled(s, q, false)
  {
    q.rtRuntime := q.bwRuntime;
    q.rtTime := 0;
    assert cpu.Abs() == s;
    SetFlag(cpu, q, false, s);
  }

  /** The queues in `d` have been reset, the others not. */
  ghost predicate Enabling(cpu: Cpu, t: Topo, s: State, d: set<RtRq>)
    reads cpu, t.es, t.qs
  {
    && cpu.t == t && s.t == t && cpu.Abs() == Cleared(s, d) && d <= t.qs
    && forall q :: q in d ==> Used(q) == Usage(false, 0, q.bwRuntime)
  }

  method EnableNext(cpu: Cpu, q: RtRq, ghost t: Topo, ghost s: State, ghost d: set<RtRq>)
    requires Enabling(cpu, t, s, d) && q in t.qs
    modifies q`throttled, q`rtTime, q`rtRuntime
    ensures Enabling(cpu, t, s, d + {q})
  {
    assert q in s.q;
    hide Cpu.Abs;
    hide Cleared;
    hide Wf;
    ClearedMore(s, d, q);
    EnableQueue(cpu, q, Cleared(s, d));
  }

  /** The loop of __enable_runtime. */
  method EnableEach(cpu: Cpu, groups: seq<RtRq>, ghost t: Topo, ghost s: State)
    requires Enabling(cpu, t, s, {}) && forall q :: q in groups ==> q in t.qs
    modifies t.qs`throttled, t.qs`rtTime, t.qs`rtRuntime
    ensures Enabling(cpu, t, s, set q | q in groups)
  {
    hide *;
    ghost var d: set<RtRq> := {};
    for i := 0 to |groups|
      invariant d == (set q | q in groups[..i]) && Enabling(cpu, t, s, d)
    {
      EnableNext(cpu, groups[i], t, s, d);
      d := d + {groups[i]};
    }
    assert d == set q | q in groups;
  }

  /** __enable_runtime, over all groups of the CPU.  Afterwards exactly those groups are missing that were, and
      every non-empty one that its flag kept off. */
  method EnableRuntime(cpu: Cpu, groups: seq<RtRq>, running: bool, ghost s: SoundState)
    requires cpu.Rep() && cpu.Abs() == s && forall q :: q in groups <==> q in cpu.t.qs
    modifies cpu.t.qs`throttled, cpu.t.qs`rtTime, cpu.t.qs`rtRuntime
    ensures running ==> forall q :: q in cpu.t.qs ==> Used(q) == Usage(false, 0, q.bwRuntime)
    ensures cpu.Abs() == if running then Cleared(s, cpu.t.qs) else s
    ensures Sound(cpu.Abs()) && Missing(cpu.Abs()) == Missing(s) + if running then StoppedIn(s, cpu.t.qs) else {}
  {
    ClearedNone(s);
    assert (set q | q in groups) == cpu.t.qs;
    hide Cpu.Abs;
    hide Cleared;
    hide Missing;
    hide Wf;
    hide Sound;
    if running {
      EnableEach(cpu, groups, cpu.t, s);
      ClearedMissing(s, cpu.t.qs);
    }
  }

  /** So a valid run queue stays valid iff no non-empty group was kept off by its flag. */
  lemma EnabledValid(s: State)
    requires Valid(s)
    ensures Valid(Cleared(s, s.t.qs)) <==> StoppedIn(s, s.t.qs) == {}
  {
    SoundIsValid(s);
    ClearedMissing(s, s.t.qs);
    SoundIsValid(Cleared(s, s.t.qs));
  }
}
