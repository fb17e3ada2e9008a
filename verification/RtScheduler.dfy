/** What the scheduler does with the run queue: pick the next task, account running time, throttle and
    replenish groups, change a task's priority, yield. */
module RtScheduler {
  import opened Kernel
  import opened RtAccounting
  import opened RtTypes
  import opened Lists
  import opened RtState
  import RtOps
  import opened RtTheorems
  import opened RtChanges
  import opened RtPick
  import opened RtRunqueue

  // ---------------------------------------------------------------- picking

  /** pick_next_rt_entity: never hits BUG_ON(idx >= MAX_RT_PRIO). */
  method PickNextEntity(cpu: Cpu, q: RtRq, ghost s: SoundState, ghost c: seq<RtEntity>) returns (e: RtEntity)
    requires cpu.Abs() == s && Descended(s, c, q)
    ensures Step(s, c, q, e)
  {
    assert s.q[q] == Snap(q);
    DescendOne(s, c, q);
    var idx := FirstBit(q.bitmap, 0);
    assert idx < MAX_RT_PRIO;
    e := q.queue[idx][0];
  }

  /** The loop of _pick_next_task_rt. */
  method PickDown(cpu: Cpu, root: RtRq, ghost s: SoundState) returns (p: RtEntity)
    requires cpu.Abs() == s && Descended(s, [], root)
    ensures p in s.t.es && Tree(s.t) && BestTask(s, p)
  {
    ghost var c: seq<RtEntity> := [];
    var q: RtRq? := root;
    var e: RtEntity? := null;
    assert root in s.t.qs && root in s.t.level && s.t.level[root] <= s.t.height;
    while q != null
      invariant q != null ==> Descended(s, c, q) && q in s.t.level && s.t.level[q] <= s.t.height
      invariant q == null ==> e != null && Tree(s.t) && e in s.t.es && BestTask(s, e)
      decreases if q == null then 0 else s.t.height - s.t.level[q] + 1
    {
      var x := PickNextEntity(cpu, q, s, c);
      e, c, q := x, [x] + c, x.myQ;
    }
    p := e;
  }

  /** _pick_next_task_rt: null when there is nothing to run, else a best reachable task. */
  method PickNextTask(cpu: Cpu, ghost s: SoundState) returns (p: RtEntity?)
    requires cpu.Rep() && cpu.Abs() == s
    ensures p == null <==> !CanQueue(cpu.root)
    ensures p != null ==> p in s.t.es && BestTask(s, p)
  {
    assert s.q[cpu.root] == Snap(cpu.root);
    if cpu.root.nrRunning == 0 {
      return null;
    }
    if Throttled(cpu.root) {
      return null;
    }
    p := PickDown(cpu, cpu.root, s);
  }

  // ---------------------------------------------------------------- throttling

  /** A queue's throttle flag, used time and runtime. */
  datatype Usage = Usage(throttled: bool, time: nat, runtime: nat)

  function Used(q: RtRq): Usage
    reads q`throttled, q`rtTime, q`rtRuntime
  {
    Usage(q.throttled, q.rtTime, q.rtRuntime)
  }

  /** What sched_rt_runtime_exceeded makes of them. */
  function Exceeded(q: RtRq, u: Usage): Usage {
    var r := Exceed(u.throttled, u.time, u.runtime, q.bwRuntime, q.bwPeriod);
    u.(throttled := r.0, time := r.1)
  }

  /** What charging `delta` to a queue makes of them. */
  function Charged(q: RtRq, u: Usage, delta: nat): Usage {
    if u.runtime == RUNTIME_INF then u else Exceeded(q, u.(time := u.time + delta))
  }

  /** In figures: only time beyond a runtime below the period throttles, and only when the group has a runtime at
      all; else the used time starts again. */
  lemma ChargedFigures(q: RtRq, u: Usage, delta: nat)
    ensures var r := Charged(q, u, delta);
            var over := u.runtime != RUNTIME_INF && u.runtime < q.bwPeriod && u.time + delta > u.runtime;
            && r.runtime == u.runtime
            && (r.throttled <==> u.throttled || (over && q.bwRuntime != 0))
            && r.time == if u.runtime == RUNTIME_INF then u.time
                         else if !u.throttled && over && q.bwRuntime == 0 then 0
                         else u.time + delta
  {
  }

  /** All queues' flags, used times and runtimes. */
  ghost function UsedMap(qs: set<RtRq>): map<RtRq, Usage>
    reads qs`throttled, qs`rtTime, qs`rtRuntime
  {
    map q | q in qs :: Used(q)
  }

  /** The queues along a path. */
  ghost function PathQs(c: seq<RtEntity>): seq<RtRq> {
    seq(|c|, i requires 0 <= i < |c| => c[i].rtRq)
  }

  lemma PathQsApart(t: Topo, c: seq<RtEntity>)
    requires Linkage(t) && IsPath(t, c)
    ensures NoDup(PathQs(c))
    ensures forall q :: q in PathQs(c) ==> q in t.qs
  {
    forall i, j | 0 <= i < j < |c| ensures PathQs(c)[i] != PathQs(c)[j] {
      AllApart(t, c, i, j);
    }
  }

  /** What charging the first k of some queues makes of them, one after the other. */
  ghost function ChargedEach(used: map<RtRq, Usage>, w: seq<RtRq>, k: nat, delta: nat): (r: map<RtRq, Usage>)
    requires k <= |w| && forall q :: q in w ==> q in used
    ensures r.Keys == used.Keys
  {
    if k == 0 then used
    else
      var m := ChargedEach(used, w, k - 1, delta);
      m[w[k - 1] := Charged(w[k - 1], m[w[k - 1]], delta)]
  }

  lemma {:induction false} ChargedFirst(used: map<RtRq, Usage>, w: seq<RtRq>, k: nat, delta: nat, q: RtRq)
    requires k <= |w| && NoDup(w) && (forall q :: q in w ==> q in used) && q in used
    ensures ChargedEach(used, w, k, delta)[q] == if q in w[..k] then Charged(q, used[q], delta) else used[q]
  {
    if k > 0 {
      ChargedFirst(used, w, k - 1, delta, q);
      assert w[..k] == w[..k - 1] + [w[k - 1]];
    }
  }

  /** Going up a path charges each group above the task, and the root, exactly once, and no other queue. */
  lemma ChargedOnce(t: Topo, used: map<RtRq, Usage>, c: seq<RtEntity>, delta: nat, q: RtRq)
    requires Linkage(t) && IsPath(t, c) && used.Keys == t.qs && q in t.qs
    ensures forall x :: x in PathQs(c) ==> x in used
    ensures ChargedEach(used, PathQs(c), |c|, delta)[q]
         == if q in PathQs(c) then Charged(q, used[q], delta) else used[q]
  {
    PathQsApart(t, c);
    ChargedFirst(used, PathQs(c), |c|, delta, q);
    assert PathQs(c)[..|c|] == PathQs(c);
  }

  twostate lemma AbsFlag(cpu: Cpu, new q: RtRq)
    requires cpu.t == old(cpu.t) && cpu.leaf == old(cpu.leaf) && q in cpu.t.qs && Wf(old(cpu.Abs()))
    requires forall x :: x in cpu.t.es ==>
               x.prio == old(x.prio) && x.normalPrio == old(x.normalPrio) && x.linked == old(x.linked)
    requires forall x :: x in cpu.t.qs && x != q ==> Snap(x) == old(Snap(x))
    requires Snap(q) == old(Snap(q)).(throttled := q.throttled)
    ensures cpu.Abs() == SetThrottled(old(cpu.Abs()), q, q.throttled)
  {
    var s := old(cpu.Abs());
    assert cpu.Abs().q == s.q[q := Snap(q)];
    assert cpu.Abs().on == s.on && cpu.Abs().prio == s.prio && cpu.Abs().normal == s.normal;
  }

  method SetFlag(cpu: Cpu, q: RtRq, b: bool, ghost s: State)
    requires cpu.Abs() == s && q in cpu.t.qs
    modifies q`throttled
    ensures cpu.Abs() == SetThrottled(s, q, b) && q.throttled == b
  {
    q.throttled := b;
    AbsFlag(cpu, q);
  }

  /** sched_rt_rq_enqueue: put a group back that is missing. */
  method SchedRtRqEnqueue(cpu: Cpu, q: RtRq, ghost s: SoundState)
    requires cpu.Rep() && cpu.Abs() == s && q in cpu.t.qs
    modifies cpu`leaf, cpu.t.es`linked, cpu.t.es`back
    modifies cpu.t.qs`bitmap, cpu.t.qs`queue, cpu.t.qs`nrRunning, cpu.t.qs`highestPrio, cpu.t.qs`nrBoosted
    ensures cpu.Abs() == EnqueueGroup(s, q)
  {
    EnqueueGroupSound(s, q);
    assert s.q[q] == Snap(q);
    if q in cpu.tgSe {
      var se := cpu.tgSe[q];
      cpu.Reads(se);
      if q.nrRunning != 0 && !se.linked {
        cpu.EnqueueRtEntity(se, false);
      }
    }
  }

  /** sched_rt_rq_dequeue: take a group off that may no longer run. */
  method SchedRtRqDequeue(cpu: Cpu, q: RtRq, ghost s: State)
    requires cpu.Rep() && cpu.Abs() == s && AtWorstLingering(s, q)
    modifies cpu`leaf, cpu.t.es`linked, cpu.t.es`back
    modifies cpu.t.qs`bitmap, cpu.t.qs`queue, cpu.t.qs`nrRunning, cpu.t.qs`highestPrio, cpu.t.qs`nrBoosted
    ensures cpu.Abs() == DequeueGroup(s, q) && q.nrBoosted == old(q.nrBoosted)
  {
    DequeueGroupSound(s, q);
    assert s.q[q] == Snap(q);
    if q in cpu.tgSe {
      var se := cpu.tgSe[q];
      cpu.Reads(se);
      if se.linked {
        cpu.DequeueRtEntity(se);
      }
    }
    assert cpu.Abs().q[q] == Snap(q);
  }

  /** The assignment rt_throttled = 1 in sched_rt_runtime_exceeded and what follows it. */
  method ThrottleNow(cpu: Cpu, q: RtRq, ghost s: SoundState)
    requires cpu.Rep() && cpu.Abs() == s && q in cpu.t.qs && !q.throttled
    modifies cpu`leaf, cpu.t.es`linked, cpu.t.es`back, q`throttled
    modifies cpu.t.qs`bitmap, cpu.t.qs`queue, cpu.t.qs`nrRunning, cpu.t.qs`highestPrio, cpu.t.qs`nrBoosted
    ensures cpu.Abs() == RtChanges.Throttle(s, q) && q.throttled && q.nrBoosted == old(q.nrBoosted)
  {
    assert s.q[q] == Snap(q);
    ThrottleSound(s, q);
    SetFlag(cpu, q, true, s);
    if Throttled(q) {
      SchedRtRqDequeue(cpu, q, SetThrottled(s, q, true));
    }
  }

  /** sched_rt_runtime_exceeded (nothing to borrow on one CPU): throttle a queue that has used up its
      runtime, and tell whether the queue is effectively throttled. */
  method SchedRtRuntimeExceeded(cpu: Cpu, q: RtRq, ghost s: SoundState) returns (exceeded: bool)
    requires cpu.Rep() && cpu.Abs() == s && q in cpu.t.qs
    modifies cpu`leaf, cpu.t.es`linked, cpu.t.es`back, q`throttled, q`rtTime
    modifies cpu.t.qs`bitmap, cpu.t.qs`queue, cpu.t.qs`nrRunning, cpu.t.qs`highestPrio, cpu.t.qs`nrBoosted
    ensures Used(q) == Exceeded(q, old(Used(q)))
    ensures q.throttled <==> old(q.throttled)
                             || (q.rtRuntime != RUNTIME_INF && q.rtRuntime < q.bwPeriod && q.bwRuntime != 0
                                 && old(q.rtTime) > q.rtRuntime)
    ensures q.rtTime == if !old(q.throttled) && q.rtRuntime != RUNTIME_INF && q.rtRuntime < q.bwPeriod
                           && q.bwRuntime == 0 && old(q.rtTime) > q.rtRuntime then 0 else old(q.rtTime)
    ensures cpu.Abs() == if q.throttled && !old(q.throttled) then RtChanges.Throttle(s, q) else s
    ensures exceeded == Throttled(q)
  {
    hide Cpu.Abs;
    hide Cpu.Rep;
    hide Throttle;
    hide Sound;
    hide Wf;
    if q.throttled {
      return Throttled(q);
    }
    if q.rtRuntime >= q.bwPeriod {
      return false;
    }
    if q.rtRuntime == RUNTIME_INF {
      return false;
    }
    if q.rtTime > q.rtRuntime {
      if q.bwRuntime != 0 {
        ThrottleNow(cpu, q, s);
        return Throttled(q);
      }
      q.rtTime := 0;
    }
    return false;
  }

  /** The group of q leaves if charging q has set its flag. */
  ghost function ThrottledIf(s: State, q: RtRq, u: Usage, delta: nat): (r: State)
    requires Tree(s.t) && q in s.t.qs
    ensures r.t == s.t
  {
    if Charged(q, u, delta).throttled && !u.throttled then RtChanges.Throttle(s, q) else s
  }

  /** The groups of the first k queues whose flags are set leave one after the other. */
  ghost function ThrottledEach(s: State, used: map<RtRq, Usage>, w: seq<RtRq>, k: nat, delta: nat): (r: State)
    requires Tree(s.t) && k <= |w| && forall q :: q in w ==> q in used && q in s.t.qs
    ensures r.t == s.t
  {
    if k == 0 then s
    else ThrottledIf(ThrottledEach(s, used, w, k - 1, delta), w[k - 1], used[w[k - 1]], delta)
  }

  lemma ThrottledIfSound(s: State, q: RtRq, u: Usage, delta: nat)
    requires Tree(s.t) && Sound(s) && q in s.t.qs
    ensures Sound(ThrottledIf(s, q, u, delta)) && Missing(ThrottledIf(s, q, u, delta)) <= Missing(s)
  {
    ThrottleSound(s, q);
  }

  /** Charging makes no group missing. */
  lemma {:induction false} ThrottledEachSound(s: State, used: map<RtRq, Usage>, w: seq<RtRq>, k: nat, delta: nat)
    requires Tree(s.t) && Sound(s) && k <= |w| && forall q :: q in w ==> q in used && q in s.t.qs
    ensures var r := ThrottledEach(s, used, w, k, delta); Sound(r) && Missing(r) <= Missing(s)
  {
    hide ThrottledIf;
    hide Sound;
    hide Tree;
    hide Missing;
    hide Wf;
    if k > 0 {
      ThrottledEachSound(s, used, w, k - 1, delta);
      ThrottledIfSound(ThrottledEach(s, used, w, k - 1, delta), w[k - 1], used[w[k - 1]], delta);
    }
  }

  lemma Placed(cpu: Cpu, q: RtRq, s: State)
    requires cpu.Rep() && cpu.Abs() == s && q in cpu.t.qs
    ensures Tree(s.t) && s.t == cpu.t && q in s.q && s.q[q] == Snap(q) && Held(s.q[q]) == Throttled(q)
    ensures s.q[q].throttled == q.throttled && s.q[q].nrRunning == q.nrRunning
  {
  }

  lemma UsedIs(q: RtRq)
    ensures Used(q) == Usage(q.throttled, q.rtTime, q.rtRuntime)
  {
  }

  lemma ChargedIs(s: State, q: RtRq, u: Usage, delta: nat)
    requires Tree(s.t) && q in s.t.qs
    ensures Charged(q, u, delta) == if u.runtime == RUNTIME_INF then u else Exceeded(q, u.(time := u.time + delta))
    ensures ThrottledIf(s, q, u, delta) == if Charged(q, u, delta).throttled && !u.throttled then Throttle(s, q) else s
  {
  }

  /** The body of that loop. */
  method ChargeOne(cpu: Cpu, q: RtRq, delta: nat, ghost s: SoundState) returns (resched: bool)
    requires cpu.Rep() && cpu.Abs() == s && q in cpu.t.qs
    modifies cpu`leaf, cpu.t.es`linked, cpu.t.es`back, q`throttled, q`rtTime
    modifies cpu.t.qs`bitmap, cpu.t.qs`queue, cpu.t.qs`nrRunning, cpu.t.qs`highestPrio, cpu.t.qs`nrBoosted
    ensures cpu.Abs() == ThrottledIf(s, q, old(Used(q)), delta)
    ensures Used(q) == Charged(q, old(Used(q)), delta)
    ensures resched == (q.rtRuntime != RUNTIME_INF && Throttled(q))
  {
    hide *;
    resched := false;
    UsedIs(q);
    Placed(cpu, q, s);
    ChargedIs(s, q, Used(q), delta);
    if q.rtRuntime != RUNTIME_INF {
      q.rtTime := q.rtTime + delta;
      UsedIs(q);
      resched := SchedRtRuntimeExceeded(cpu, q, s);
      UsedIs(q);
    }
  }

  twostate lemma UsedAfter(qs: set<RtRq>, new q: RtRq)
    requires q in qs && forall x :: x in qs && x != q ==> Used(x) == old(Used(x))
    ensures UsedMap(qs) == old(UsedMap(qs))[q := Used(q)]
  {
  }

  /** The run queue of `cpu` is as it should be between two operations. */
  ghost predicate Steady(cpu: Cpu, t: Topo)
    reads cpu, t.es, t.qs
  {
    cpu.t == t && cpu.Rep() && Wf(cpu.Abs()) && Sound(cpu.Abs())
  }

  method ChargeSteady(cpu: Cpu, q: RtRq, delta: nat, ghost t: Topo) returns (resched: bool)
    requires Steady(cpu, t) && q in t.qs
    modifies cpu`leaf, t.es`linked, t.es`back, q`throttled, q`rtTime
    modifies t.qs`bitmap, t.qs`queue, t.qs`nrRunning, t.qs`highestPrio, t.qs`nrBoosted
    ensures Steady(cpu, t)
    ensures cpu.Abs() == ThrottledIf(old(cpu.Abs()), q, old(Used(q)), delta)
    ensures UsedMap(t.qs) == old(UsedMap(t.qs))[q := Charged(q, old(Used(q)), delta)]
    ensures q in cpu.Abs().q && resched == (q.rtRuntime != RUNTIME_INF && Held(cpu.Abs().q[q]))
  {
    hide Sound;
    hide Tree;
    hide Charged;
    hide ThrottledIf;
    hide Cpu.Abs;
    hide Snap;
    hide Wf;
    hide UsedMap;
    ghost var s: State := cpu.Abs();
    Placed(cpu, q, s);
    ThrottledIfSound(s, q, Used(q), delta);
    resched := ChargeOne(cpu, q, delta, s);
    UsedAfter(t.qs, q);
    Placed(cpu, q, ThrottledIf(s, q, old(Used(q)), delta));
  }

  /** Entity k of a path whose queues are w. */
  ghost predicate OnTheWay(t: Topo, c: seq<RtEntity>, w: seq<RtRq>, k: nat, se: RtEntity?) {
    && IsPath(t, c)
    && (forall q :: q in w ==> q in t.qs)
    && NoDup(w) && w == PathQs(c)
    && k <= |c| && se == if k < |c| then c[k] else null
  }

  lemma OnTheWayStep(t: Topo, c: seq<RtEntity>, w: seq<RtRq>, k: nat, se: RtEntity)
    requires OnTheWay(t, c, w, k, se)
    ensures k < |c| == |w| && w[k] == se.rtRq && OnTheWay(t, c, w, k + 1, se.parent)
    ensures NoDup(w) && (forall q :: q in w ==> q in t.qs) && IsPath(t, c) && w == PathQs(c)
  {
    assert c[k].parent == Above(c, k);
  }

  lemma OnTheWayDone(t: Topo, c: seq<RtEntity>, w: seq<RtRq>, k: nat)
    requires OnTheWay(t, c, w, k, null)
    ensures k == |w|
  {
  }

  /** A queue among the first k of w that has a limit is effectively throttled. */
  ghost predicate SomeHeld(s: State, used: map<RtRq, Usage>, w: seq<RtRq>, k: nat)
    requires k <= |w| && forall q :: q in w ==> q in used && q in s.q
  {
    exists i :: 0 <= i < k && used[w[i]].runtime != RUNTIME_INF && Held(s.q[w[i]])
  }

  /** The rest of a path is the chain of the group of its k-th queue, and runs on other queues. */
  lemma ChainAbove(t: Topo, c: seq<RtEntity>, k: nat, i: nat)
    requires Tree(t) && IsPath(t, c) && i <= k < |c| && c[k].rtRq in t.tgSe
    ensures var se := t.tgSe[c[k].rtRq];
            se in t.es && !RtOps.OnPath(Chain(t, se), c[i].rtRq)
  {
    assert c[k].parent == Above(c, k);
    SuffixIsPath(t, c, k + 1);
    ChainUnique(t, c[k + 1..]);
    var d := c[k + 1..];
    forall j | 0 <= j < |d| ensures d[j].rtRq != c[i].rtRq {
      AllApart(t, c, i, k + 1 + j);
      assert d[j] == c[k + 1 + j];
    }
  }

  /** Throttling the k-th queue of a path touches none of those below it. */
  lemma ThrottledAbove(s: State, c: seq<RtEntity>, k: nat, i: nat)
    requires Tree(s.t) && Sound(s) && IsPath(s.t, c) && i < k < |c|
    ensures c[k].rtRq in s.t.qs && c[i].rtRq in s.q && Throttle(s, c[k].rtRq).q[c[i].rtRq] == s.q[c[i].rtRq]
  {
    var q := c[k].rtRq;
    AllApart(s.t, c, i, k);
    FlagSet(s, q);
    if q in s.t.tgSe {
      ChainAbove(s.t, c, k, i);
      hide Tree;
      hide IsPath;
      hide Missing;
      LeavesAlone(s, q, c[i].rtRq);
    }
  }

  lemma LeavesAlone(s: State, q: RtRq, x: RtRq)
    requires Tree(s.t) && q in s.t.tgSe && q in s.t.qs && x in s.q && x != q
    requires s.t.tgSe[q] in s.t.es && !RtOps.OnPath(Chain(s.t, s.t.tgSe[q]), x)
    requires s.q[q].nrBoosted == 0 ==> AtWorstLingering(SetThrottled(s, q, true), q)
    ensures Throttle(s, q).q[x] == s.q[x]
  {
    var u := SetThrottled(s, q, true);
    if s.q[q].nrBoosted == 0 && s.t.tgSe[q] in u.on {
      DequeueGroupSound(u, q);
      RtOps.DequeueSound(u, s.t.tgSe[q]);
    }
  }

  lemma SomeHeldNext(s: State, used: map<RtRq, Usage>, c: seq<RtEntity>, k: nat, delta: nat)
    requires Tree(s.t) && Sound(s) && IsPath(s.t, c) && k < |c| && used.Keys == s.t.qs
    requires forall q :: q in PathQs(c) ==> q in s.t.qs
    ensures var w := PathQs(c);
            var r := ThrottledIf(s, w[k], used[w[k]], delta);
            SomeHeld(r, used, w, k + 1)
            == (SomeHeld(s, used, w, k) || (used[w[k]].runtime != RUNTIME_INF && Held(r.q[w[k]])))
  {
    var w := PathQs(c);
    var r := ThrottledIf(s, w[k], used[w[k]], delta);
    forall i | 0 <= i < k ensures r.q[w[i]] == s.q[w[i]] {
      if r != s {
        ThrottledAbove(s, c, k, i);
      }
    }
    hide *;
    SomeHeldMore(s, r, used, w, k);
  }

  lemma SomeHeldMore(s: State, r: State, used: map<RtRq, Usage>, w: seq<RtRq>, k: nat)
    requires k < |w| && r.t == s.t && forall q :: q in w ==> q in used && q in s.q && q in r.q
    requires forall i :: 0 <= i < k ==> r.q[w[i]] == s.q[w[i]]
    ensures SomeHeld(r, used, w, k + 1)
         == (SomeHeld(s, used, w, k) || (used[w[k]].runtime != RUNTIME_INF && Held(r.q[w[k]])))
  {
    hide Held;
  }

  lemma NotYet(t: Topo, used: map<RtRq, Usage>, w: seq<RtRq>, k: nat, delta: nat)
    requires k < |w| && NoDup(w) && used.Keys == t.qs && forall q :: q in w ==> q in t.qs
    ensures ChargedEach(used, w, k, delta)[w[k]] == used[w[k]]
  {
    ChargedFirst(used, w, k, delta, w[k]);
  }

  method ChargeLevel(cpu: Cpu, q: RtRq, delta: nat, ghost t: Topo, ghost w: seq<RtRq>, ghost k: nat,
                     ghost used: map<RtRq, Usage>) returns (resched: bool)
    requires Steady(cpu, t) && k < |w| && q == w[k] && used.Keys == t.qs && NoDup(w) && forall q :: q in w ==> q in t.qs
    requires UsedMap(t.qs) == ChargedEach(used, w, k, delta)
    modifies cpu`leaf, t.es`linked, t.es`back, t.qs`throttled, t.qs`rtTime
    modifies t.qs`bitmap, t.qs`queue, t.qs`nrRunning, t.qs`highestPrio, t.qs`nrBoosted
    ensures Steady(cpu, t)
    ensures cpu.Abs() == ThrottledIf(old(cpu.Abs()), q, used[q], delta)
    ensures UsedMap(t.qs) == ChargedEach(used, w, k + 1, delta)
    ensures q in cpu.Abs().q && resched == (used[q].runtime != RUNTIME_INF && Held(cpu.Abs().q[q]))
  {
    NotYet(t, used, w, k, delta);
    assert UsedMap(t.qs)[q] == Used(q);
    hide UsedMap;
    hide Used;
    hide Held;
    hide Wf;
    hide Steady;
    hide ThrottledIf;
    hide Charged;
    resched := ChargeSteady(cpu, q, delta, t);
  }

  lemma SteadyMeans(cpu: Cpu, t: Topo)
    requires Steady(cpu, t)
    ensures Wf(cpu.Abs()) && Sound(cpu.Abs()) && cpu.Abs().t == t && Tree(t)
  {
  }

  lemma ThrottledMore(s: State, used: map<RtRq, Usage>, w: seq<RtRq>, k: nat, delta: nat)
    requires Tree(s.t) && k < |w| && forall q :: q in w ==> q in used && q in s.t.qs
    ensures ThrottledEach(s, used, w, k + 1, delta)
         == ThrottledIf(ThrottledEach(s, used, w, k, delta), w[k], used[w[k]], delta)
  {
  }

  /** The first k of the queues w along the path c are charged; `se` is the next entity. */
  ghost predicate Charging(cpu: Cpu, t: Topo, c: seq<RtEntity>, w: seq<RtRq>, k: nat, se: RtEntity?,
                           used: map<RtRq, Usage>, delta: nat, s: State, resched: bool)
    reads cpu, t.es, t.qs
  {
    && Steady(cpu, t) && OnTheWay(t, c, w, k, se) && s.t == t
    && used.Keys == t.qs && UsedMap(t.qs) == ChargedEach(used, w, k, delta)
    && cpu.Abs() == ThrottledEach(s, used, w, k, delta)
    && resched == SomeHeld(cpu.Abs(), used, w, k)
  }

  /** One round of that loop. */
  method ChargeSe(cpu: Cpu, se: RtEntity, delta: nat, ghost t: Topo, ghost c: seq<RtEntity>, ghost w: seq<RtRq>,
                  ghost k: nat, ghost used: map<RtRq, Usage>, ghost s: State, before: bool) returns (resched: bool)
    requires Charging(cpu, t, c, w, k, se, used, delta, s, before)
    modifies cpu`leaf, t.es`linked, t.es`back, t.qs`throttled, t.qs`rtTime
    modifies t.qs`bitmap, t.qs`queue, t.qs`nrRunning, t.qs`highestPrio, t.qs`nrBoosted
    ensures k < |c| && Charging(cpu, t, c, w, k + 1, se.parent, used, delta, s, resched)
  {
    OnTheWayStep(t, c, w, k, se);
    SteadyMeans(cpu, t);
    hide ThrottledIf;
    hide ThrottledEach;
    hide ChargedEach;
    hide Steady;
    hide OnTheWay;
    hide UsedMap;
    hide SomeHeld;
    hide Sound;
    hide Tree;
    hide IsPath;
    hide Cpu.Abs;
    ghost var u: State := cpu.Abs();
    ThrottledMore(s, used, w, k, delta);
    var now := ChargeLevel(cpu, se.rtRq, delta, t, w, k, used);
    SomeHeldNext(u, used, c, k, delta);
    resched := before || now;
  }

  /** The loop of update_curr_rt. */
  method ChargeUp(cpu: Cpu, curr: RtEntity, delta: nat, ghost t: Topo, ghost c: seq<RtEntity>, ghost w: seq<RtRq>,
                  ghost used: map<RtRq, Usage>, ghost s: State)
    returns (resched: bool, ghost k: nat)
    requires Charging(cpu, t, c, w, 0, curr, used, delta, s, false)
    modifies cpu`leaf, t.es`linked, t.es`back, t.qs`throttled, t.qs`rtTime
    modifies t.qs`bitmap, t.qs`queue, t.qs`nrRunning, t.qs`highestPrio, t.qs`nrBoosted
    ensures Charging(cpu, t, c, w, k, null, used, delta, s, resched)
  {
    hide *;
    var se: RtEntity? := curr;
    resched, k := false, 0;
    while se != null
      invariant Charging(cpu, t, c, w, k, se, used, delta, s, resched)
      decreases |c| - k
    {
      resched := ChargeSe(cpu, se, delta, t, c, w, k, used, s, resched);
      se, k := se.parent, k + 1;
    }
  }

  /** Each queue along the path of `curr` is charged. */
  method ChargePath(cpu: Cpu, curr: RtEntity, delta: nat, ghost t: Topo) returns (resched: bool)
    requires Steady(cpu, t) && curr in t.es
    modifies cpu`leaf, t.es`linked, t.es`back, t.qs`throttled, t.qs`rtTime
    modifies t.qs`bitmap, t.qs`queue, t.qs`nrRunning, t.qs`highestPrio, t.qs`nrBoosted
    ensures Steady(cpu, t)
    ensures UsedMap(t.qs) == AfterCharge(t, old(UsedMap(t.qs)), curr, delta, true)
    ensures cpu.Abs() == ThrottledBy(old(cpu.Abs()), old(UsedMap(t.qs)), curr, delta)
    ensures Missing(cpu.Abs()) <= Missing(old(cpu.Abs()))
    ensures resched == HeldAbove(cpu.Abs(), old(UsedMap(t.qs)), curr)
  {
    ghost var c := Chain(t, curr);
    ghost var w, used, s := PathQs(c), UsedMap(t.qs), cpu.Abs();
    PathQsApart(t, c);
    ghost var k;
    resched, k := ChargeUp(cpu, curr, delta, t, c, w, used, s);
    SteadyMeans(cpu, t);
    OnTheWayDone(t, c, w, k);
    assert UsedMap(t.qs) == ChargedEach(used, w, |w|, delta) && cpu.Abs() == ThrottledEach(s, used, w, |w|, delta);
    assert resched == SomeHeld(cpu.Abs(), used, w, |w|);
    hide *;
    ChargedAll(t, used, curr, delta);
    ThrottledAll(s, used, curr, delta);
    HeldAll(cpu.Abs(), used, curr);
  }

  /** The fields of a queue after a charge: it is throttled once it has used more than a runtime that is below its
      period, unless its group has no runtime at all; then its used time starts again. */
  twostate predicate ChargedIn(q: RtRq, charged: bool, delta: nat)
    reads q
  {
    if charged && q.rtRuntime != RUNTIME_INF then
      && (q.throttled <==> old(q.throttled) || (q.rtRuntime < q.bwPeriod && q.bwRuntime != 0
                                                && old(q.rtTime) + delta > q.rtRuntime))
      && q.rtTime == if !old(q.throttled) && q.rtRuntime < q.bwPeriod && q.bwRuntime == 0
                        && old(q.rtTime) + delta > q.rtRuntime then 0
                     else old(q.rtTime) + delta
    else q.throttled == old(q.throttled) && q.rtTime == old(q.rtTime)
  }

  /** One of the queues w has a limit and is effectively throttled. */
  ghost predicate StopsIn(qs: set<RtRq>, w: seq<RtRq>)
    reads qs
  {
    exists q :: q in qs && q in w && q.throttled && q.nrBoosted == 0 && q.rtRuntime != RUNTIME_INF
  }

  /** What the maps and the snapshot say about the fields. */
  twostate lemma FieldsAfter(new cpu: Cpu, new curr: RtEntity, new delta: nat, new enabled: bool, t: Topo)
    requires Steady(cpu, t) && Tree(t) && curr in t.es
    requires forall q :: q in t.qs ==> q.rtRuntime == old(q.rtRuntime)
    requires UsedMap(t.qs) == AfterCharge(t, old(UsedMap(t.qs)), curr, delta, enabled)
    ensures forall q :: q in t.qs ==> ChargedIn(q, enabled && q in PathQs(Chain(t, curr)), delta)
    ensures HeldAbove(cpu.Abs(), old(UsedMap(t.qs)), curr) == StopsIn(t.qs, PathQs(Chain(t, curr)))
  {
    hide Tree;
    hide Chain;
    hide PathQs;
    hide Charged;
    hide Sound;
    forall q | q in t.qs
      ensures ChargedIn(q, enabled && q in PathQs(Chain(t, curr)), delta)
      ensures old(UsedMap(t.qs))[q] == old(Used(q)) && cpu.Abs().q[q] == Snap(q)
    {
      assert UsedMap(t.qs)[q] == Used(q) && old(UsedMap(t.qs))[q] == old(Used(q));
      ChargedFigures(q, old(Used(q)), delta);
    }
  }

  lemma Uncharged(t: Topo, used: map<RtRq, Usage>, curr: RtEntity, delta: nat)
    requires Tree(t) && curr in t.es
    ensures AfterCharge(t, used, curr, delta, false) == used
  {
  }

  /** No group that is effectively throttled is queued. */
  lemma GroupsOff(cpu: Cpu, t: Topo)
    requires Steady(cpu, t)
    ensures forall q :: q in cpu.tgSe && q in t.qs && q.throttled && q.nrBoosted == 0 ==> !cpu.tgSe[q].linked
  {
    forall q | q in cpu.tgSe && q in t.qs && q.throttled && q.nrBoosted == 0 ensures !cpu.tgSe[q].linked {
      assert Fits(cpu.Abs(), cpu.tgSe[q]) && cpu.Abs().q[q] == Snap(q);
    }
  }

  /** update_curr_rt, from the point where the execution time is known: each queue from the task's own up
      to the root is charged once, and exactly those that have thereby used up their runtime are throttled,
      nearest first.  The task is to be rescheduled iff one of them is effectively throttled in the end. */
  method UpdateCurrRt(cpu: Cpu, curr: RtEntity, delta: nat, bandwidthEnabled: bool, ghost t: Topo)
    returns (resched: bool)
    requires Steady(cpu, t) && curr in t.es
    modifies cpu`leaf, t.es`linked, t.es`back, t.qs`throttled, t.qs`rtTime
    modifies t.qs`bitmap, t.qs`queue, t.qs`nrRunning, t.qs`highestPrio, t.qs`nrBoosted
    ensures Steady(cpu, t)
    ensures UsedMap(t.qs) == AfterCharge(t, old(UsedMap(t.qs)), curr, delta, bandwidthEnabled)
    ensures cpu.Abs() == if bandwidthEnabled then ThrottledBy(old(cpu.Abs()), old(UsedMap(t.qs)), curr, delta)
                         else old(cpu.Abs())
    ensures Missing(cpu.Abs()) <= Missing(old(cpu.Abs()))
    ensures resched == (bandwidthEnabled && HeldAbove(cpu.Abs(), old(UsedMap(t.qs)), curr))
    // the same in the fields of the queues
    ensures forall q :: q in t.qs ==> ChargedIn(q, bandwidthEnabled && q in PathQs(Chain(t, curr)), delta)
    ensures resched == (bandwidthEnabled && StopsIn(t.qs, PathQs(Chain(t, curr))))
    ensures forall q :: q in cpu.tgSe && q in t.qs && q.throttled && q.nrBoosted == 0 ==> !cpu.tgSe[q].linked
  {
    hide *;
    resched := false;
    SteadyMeans(cpu, t);
    Uncharged(t, UsedMap(t.qs), curr, delta);
    if bandwidthEnabled {
      resched := ChargePath(cpu, curr, delta, t);
    }
    FieldsAfter(cpu, curr, delta, bandwidthEnabled, t);
    GroupsOff(cpu, t);
  }

  /** The groups above a task that its charge throttles leave. */
  ghost function ThrottledBy(s: State, used: map<RtRq, Usage>, curr: RtEntity, delta: nat): (r: State)
    requires Tree(s.t) && curr in s.t.es && used.Keys == s.t.qs
    ensures r.t == s.t
  {
    PathQsApart(s.t, Chain(s.t, curr));
    ThrottledEach(s, used, PathQs(Chain(s.t, curr)), |PathQs(Chain(s.t, curr))|, delta)
  }

  /** A queue with a limit, from the task's own up to the root, is effectively throttled. */
  ghost predicate HeldAbove(s: State, used: map<RtRq, Usage>, curr: RtEntity)
    requires Tree(s.t) && curr in s.t.es && used.Keys == s.t.qs
  {
    exists q :: q in s.q && q in PathQs(Chain(s.t, curr)) && used[q].runtime != RUNTIME_INF && Held(s.q[q])
  }

  lemma HeldAll(s: State, used: map<RtRq, Usage>, curr: RtEntity)
    requires Tree(s.t) && curr in s.t.es && used.Keys == s.t.qs
    ensures var w := PathQs(Chain(s.t, curr));
            (forall q :: q in w ==> q in used && q in s.q) && SomeHeld(s, used, w, |w|) == HeldAbove(s, used, curr)
  {
    var w := PathQs(Chain(s.t, curr));
    PathQsApart(s.t, Chain(s.t, curr));
    if HeldAbove(s, used, curr) {
      var q :| q in s.q && q in w && used[q].runtime != RUNTIME_INF && Held(s.q[q]);
      var i :| 0 <= i < |w| && w[i] == q;
      assert SomeHeld(s, used, w, |w|);
    }
    if SomeHeld(s, used, w, |w|) {
      var i :| 0 <= i < |w| && used[w[i]].runtime != RUNTIME_INF && Held(s.q[w[i]]);
      assert w[i] in w;
    }
  }

  lemma ThrottledAll(s: State, used: map<RtRq, Usage>, curr: RtEntity, delta: nat)
    requires Tree(s.t) && curr in s.t.es && used.Keys == s.t.qs && Sound(s)
    ensures var w := PathQs(Chain(s.t, curr));
            && (forall q :: q in w ==> q in used && q in s.t.qs)
            && ThrottledBy(s, used, curr, delta) == ThrottledEach(s, used, w, |w|, delta)
    ensures Sound(ThrottledBy(s, used, curr, delta)) && Missing(ThrottledBy(s, used, curr, delta)) <= Missing(s)
  {
    var w := PathQs(Chain(s.t, curr));
    PathQsApart(s.t, Chain(s.t, curr));
    ThrottledEachSound(s, used, w, |w|, delta);
  }

  lemma ChargedAll(t: Topo, used: map<RtRq, Usage>, curr: RtEntity, delta: nat)
    requires Tree(t) && curr in t.es && used.Keys == t.qs
    ensures forall x :: x in PathQs(Chain(t, curr)) ==> x in used
    ensures ChargedEach(used, PathQs(Chain(t, curr)), |PathQs(Chain(t, curr))|, delta)
         == AfterCharge(t, used, curr, delta, true)
  {
    var c := Chain(t, curr);
    PathQsApart(t, c);
    forall q | q in t.qs {
      ChargedOnce(t, used, c, delta, q);
    }
  }

  /** Every queue's flag and used time after `curr` ran for `delta`. */
  ghost function AfterCharge(t: Topo, used: map<RtRq, Usage>, curr: RtEntity, delta: nat, enabled: bool):
    map<RtRq, Usage>
    requires Tree(t) && curr in t.es
  {
    map q | q in used :: if enabled && q in PathQs(Chain(t, curr)) then Charged(q, used[q], delta) else used[q]
  }
}
