/** A group goes missing: from an empty CPU, by the operations of the run queue alone. */
module RtMissing {
  import opened Kernel
  import opened RtTypes
  import opened Lists
  import opened RtState
  import RtOps
  import opened RtTheorems
  import opened RtChanges
  import opened RtRunqueue
  import opened RtScheduler
  import opened RtTimer
  import opened RtEvents

  /** The only task of a group, queued without a boost. */
  lemma LoneTask(s: State, e: RtEntity)
    requires Sound(s) && e in s.on && e.myQ == null && s.prio[e] == s.normal[e]
    requires forall x :: x in s.t.es && x.rtRq == e.rtRq ==> x == e
    ensures s.q[e.rtRq].nrRunning != 0 && s.q[e.rtRq].nrBoosted == 0
  {
    OnLeaf(s, e);
    assert CountsOk(s, e.rtRq);
    assert BoostedOn(s, e.rtRq) == {};
  }

  /** A group that its flag keeps off, and no other. */
  lemma LoneGroup(s: State, g: RtEntity, e: RtEntity)
    requires s.t.es == {g, e} && e.myQ == null && g.myQ != null && g.myQ in s.t.qs
    requires s.q[g.myQ].nrRunning != 0 && Held(s.q[g.myQ])
    ensures StoppedIn(s, s.t.qs) == {g}
  {
  }

  lemma RootIs(cpu: Cpu)
    requires cpu.Rep()
    ensures cpu.root in cpu.t.qs && cpu.root in cpu.t.level && cpu.root !in cpu.t.tgSe && cpu.Abs().t == cpu.t
  {
  }

  lemma TopoIs(cpu: Cpu)
    ensures cpu.Abs().t == cpu.t
  {
  }

  lemma GrownIs(t: Topo, e: RtEntity)
    requires e.rtRq in t.level
    ensures e.myQ == null ==> Grown(t, e) == t.(es := t.es + {e})
    ensures e.myQ != null ==>
              var g := Grown(t, e);
              g.es == t.es + {e} && g.qs == t.qs + {e.myQ} && e.myQ in g.tgSe && g.tgSe[e.myQ] == e && e.myQ in g.level
  {
  }

  /** A CPU with one group, its entity `g`, and one task `e` in it that is not queued. */
  method OneTask(runtime: nat, period: nat, prio: nat) returns (cpu: Cpu, g: RtEntity, e: RtEntity)
    ensures fresh(cpu) && fresh(cpu.t.es) && fresh(cpu.t.qs)
    ensures cpu.Rep() && Wf(cpu.Abs()) && Sound(cpu.Abs()) && Missing(cpu.Abs()) == {}
    ensures cpu.t.es == {g, e} && g.myQ != null && cpu.t.qs == {cpu.root, g.myQ}
    ensures g.rtRq == cpu.root != g.myQ && e.rtRq == g.myQ && e.myQ == null && e.prio == e.normalPrio == prio
    ensures Used(g.myQ) == Usage(false, 0, runtime) && g.myQ.bwRuntime == runtime && g.myQ.bwPeriod == period
  {
    hide *;
    cpu := new Cpu(period, period);
    RootIs(cpu);
    SoundIsValid(cpu.Abs());
    ghost var t0 := cpu.t;
    g := NewGroup(cpu, cpu.root, null, runtime, period, cpu.Abs());
    GrownIs(t0, g);
    TopoIs(cpu);
    ghost var t1 := cpu.t;
    e := NewTask(cpu, g.myQ, g, prio, cpu.Abs());
    GrownIs(t1, e);
    TopoIs(cpu);
  }

  /** Charging a queue beyond its runtime throttles it. */
  lemma Overused(cpu: Cpu, q: RtRq, delta: nat, s: State)
    requires cpu.Rep() && cpu.Abs() == s && q in cpu.t.qs && Sound(s)
    requires 0 < q.rtRuntime < q.bwPeriod && q.rtRuntime != RUNTIME_INF && q.rtRuntime < delta && q.bwRuntime != 0
    requires Used(q) == Usage(false, 0, q.rtRuntime) && s.q[q].nrRunning != 0 && s.q[q].nrBoosted == 0
    ensures Tree(s.t) && q in s.t.qs
    ensures var r := ThrottledIf(s, q, Used(q), delta);
            Sound(r) && r.t == s.t && q in r.q && r.q[q].nrRunning != 0 && Held(r.q[q]) && Missing(r) <= Missing(s)
  {
    ThrottleSound(s, q);
    ThrottledIfSound(s, q, Used(q), delta);
  }

  /** The task is queued and runs for longer than its group may. */
  method UsedUp(runtime: nat, period: nat, prio: nat, delta: nat) returns (cpu: Cpu, g: RtEntity, e: RtEntity)
    requires prio < MAX_RT_PRIO && 0 < runtime < period && runtime != RUNTIME_INF && runtime < delta
    ensures fresh(cpu) && fresh(cpu.t.es) && fresh(cpu.t.qs) && cpu.t.es == {g, e} && e.myQ == null
    ensures cpu.Rep() && Wf(cpu.Abs()) && Sound(cpu.Abs()) && Missing(cpu.Abs()) == {} && cpu.Abs().t == cpu.t
    ensures g.myQ != null && cpu.t.qs == {cpu.root, g.myQ} && g.myQ in cpu.Abs().q
    ensures cpu.Abs().q[g.myQ].nrRunning != 0 && Held(cpu.Abs().q[g.myQ])
  {
    hide *;
    cpu, g, e := OneTask(runtime, period, prio);
    var q: RtRq := g.myQ;
    TaskIs(cpu, e, cpu.Abs());
    SoundButPath(cpu.Abs(), Chain(cpu.t, e));
    cpu.EnqueueRtEntity(e, false);
    ghost var s: State := cpu.Abs();
    TaskIs(cpu, e, s);
    LoneTask(s, e);
    UsedIs(q);
    Overused(cpu, q, delta, s);
    var resched := ChargeOne(cpu, q, delta, s);
    TopoIs(cpu);
  }

  /** It happens: a group has used up its runtime and is throttled, the CPU comes back, and the group could run
      but is on no list. */
  method GoesMissing(runtime: nat, period: nat, prio: nat, delta: nat) returns (cpu: Cpu, g: RtEntity, e: RtEntity)
    requires prio < MAX_RT_PRIO && 0 < runtime < period && runtime != RUNTIME_INF && runtime < delta
    ensures cpu.Rep() && Wf(cpu.Abs()) && Sound(cpu.Abs()) && Missing(cpu.Abs()) == {g}
  {
    hide *;
    cpu, g, e := UsedUp(runtime, period, prio, delta);
    LoneGroup(cpu.Abs(), g, e);
    EnableRuntime(cpu, [cpu.root, g.myQ], true, cpu.Abs());
  }
}
