/** What else happens to a run queue: priorities change, tasks yield, tasks and groups are created. */
module RtEvents {
  import opened Kernel
  import opened RtTypes
  import opened Lists
  import opened RtState
  import RtOps
  import opened RtTheorems
  import opened RtChanges
  import opened RtRunqueue
  import opened RtScheduler

  // ---------------------------------------------------------------- a task's priority

  /** New priorities for a task: off if it was on, the change, and on again if the task is then a queued
      real-time task. */
  ghost function Reprioritised(s: State, e: RtEntity, prio: nat, normal: nat, head: bool, back: bool): (r: State)
    requires Tree(s.t) && e in s.t.es
    ensures r.t == s.t
  {
    var u := SetPrio(if e in s.on then RtOps.Dequeue(s, e) else s, e, prio, normal);
    if back then RtOps.Enqueue(u, e, head) else u
  }

  lemma SoundButPath(s: State, c: seq<RtEntity>)
    requires Sound(s)
    ensures SoundBut(s, c)
  {
  }

  lemma LeftSound(s: State, e: RtEntity, prio: nat, normal: nat)
    requires Tree(s.t) && Sound(s) && e in s.t.es && e.myQ == null
    ensures SoundBut(s, Chain(s.t, e))
    ensures var u := SetPrio(if e in s.on then RtOps.Dequeue(s, e) else s, e, prio, normal);
            && u.t == s.t && e !in u.on && Sound(u) && SoundBut(u, Chain(s.t, e)) && Missing(u) <= Missing(s)
            && u.prio[e] == prio
  {
    SoundButPath(s, Chain(s.t, e));
    RtOps.DequeueSound(s, e);
    var v := if e in s.on then RtOps.Dequeue(s, e) else s;
    hide RtOps.Dequeue;
    hide Tree;
    hide Chain;
    hide SoundBut;
    hide Missing;
    PrioKeeps(v, e, prio, normal);
    SoundButPath(SetPrio(v, e, prio, normal), Chain(s.t, e));
  }

  /** It queues no group that must not be, makes none missing, and ends with the task where it belongs. */
  lemma {:induction false} ReprioritisedSound(s: State, e: RtEntity, prio: nat, normal: nat, head: bool, back: bool)
    requires Tree(s.t) && Sound(s) && e in s.t.es && e.myQ == null && (back ==> prio < MAX_RT_PRIO)
    ensures SoundBut(s, Chain(s.t, e))
    ensures var u := SetPrio(if e in s.on then RtOps.Dequeue(s, e) else s, e, prio, normal);
            && u.t == s.t && e !in u.on && SoundBut(u, Chain(s.t, e))
            && Reprioritised(s, e, prio, normal, head, back) == if back then RtOps.Enqueue(u, e, head) else u
    ensures var r := Reprioritised(s, e, prio, normal, head, back);
            r.t == s.t && Sound(r) && Missing(r) <= Missing(s) && (e in r.on <==> back)
  {
    LeftSound(s, e, prio, normal);
    hide Sound;
    hide SoundBut;
    hide Tree;
    hide Chain;
    hide SetPrio;
    hide Wf;
    hide RtOps.Enqueue;
    hide RtOps.Dequeue;
    hide RtOps.SameBut;
    hide RtOps.Members;
    hide Missing;
    if back {
      RtOps.EnqueueSound(SetPrio(if e in s.on then RtOps.Dequeue(s, e) else s, e, prio, normal), e, head);
    }
  }

  /** The task leaves its list for the end asked for of the one of its new priority; at that level nothing else
      changes its place. */
  lemma {:induction false} ReprioritisedOrder(s: State, e: RtEntity, prio: nat, normal: nat, head: bool, back: bool)
    requires Tree(s.t) && Sound(s) && e in s.t.es && e.myQ == null && (back ==> prio < MAX_RT_PRIO)
    ensures MovedWithin(s, Reprioritised(s, e, prio, normal, head, back), e, head)
  {
    LeftSound(s, e, prio, normal);
    assert Chain(s.t, e)[0] == e;
    var v := if e in s.on then RtOps.Dequeue(s, e) else s;
    var u := SetPrio(v, e, prio, normal);
    if e in s.on {
      DequeueOrder(s, e, 0);
    }
    hide RtOps.Dequeue;
    hide RtOps.Enqueue;
    hide Tree;
    hide Chain;
    hide Sound;
    hide SoundBut;
    hide Missing;
    OffPlace(s, v, e, prio, normal);
    if back {
      EnqueueOrder(u, e, head, 0);
      MovedTwice(s, u, RtOps.Enqueue(u, e, head), e, head, head);
    }
  }

  /** Off the queue a new priority moves nothing. */
  lemma OffPlace(s: State, v: State, e: RtEntity, prio: nat, normal: nat)
    requires v.t == s.t && e in s.t.es && e !in v.on
    requires (v == s && e !in s.on) || MovedWithin(s, v, e, false)
    ensures forall head :: MovedWithin(s, SetPrio(v, e, prio, normal), e, head)
    ensures Place(SetPrio(v, e, prio, normal), e) == MAX_RT_PRIO
  {
  }

  method AssignPrio(cpu: Cpu, e: RtEntity, prio: nat, normal: nat, ghost s: State)
    requires cpu.Abs() == s && e in cpu.t.es
    modifies e`prio, e`normalPrio
    ensures cpu.Abs() == SetPrio(s, e, prio, normal) && e.prio == prio && e.normalPrio == normal
  {
    hide Snap;
    hide Wf;
    e.prio := prio;
    e.normalPrio := normal;
    ghost var r := cpu.Abs();
    assert r.prio == s.prio[e := prio] && r.normal == s.normal[e := normal] && r.q == s.q && r.on == s.on;
  }

  /** The task is the first or the last of the list of its priority. */
  predicate AtEnd(e: RtEntity, head: bool)
    reads e, e.rtRq
  {
    && e.prio < |e.rtRq.queue| && e.rtRq.queue[e.prio] != []
    && e.rtRq.queue[e.prio][if head then 0 else |e.rtRq.queue[e.prio]| - 1] == e
  }

  lemma EndIs(cpu: Cpu, e: RtEntity, head: bool, s: State)
    requires Wf(cpu.Abs()) && cpu.t == s.t && e in s.t.es && e.myQ == null && Sound(cpu.Abs())
    requires MovedWithin(s, cpu.Abs(), e, head)
    ensures e.linked ==> AtEnd(e, head)
  {
    cpu.Reads(e);
    hide Sound;
    hide TakenFrom;
    hide Cpu.Abs;
    hide Wf;
    if e.linked {
      SoundPrio(cpu.Abs(), e);
      assert Place(cpu.Abs(), e) == e.prio;
    }
  }

  lemma SoundPrio(s: State, e: RtEntity)
    requires Sound(s) && e in s.on
    ensures e in s.t.es && Prio(s, e) < MAX_RT_PRIO
  {
  }

  /** What the changes of a task's priority have in common. */
  method Reprioritise(cpu: Cpu, e: RtEntity, prio: nat, normal: nat, head: bool, off: bool, back: bool,
                      ghost s: SoundState)
    requires cpu.Rep() && cpu.Abs() == s && e in cpu.t.es && e.myQ == null
    requires (e.linked <==> off) && (off ==> e.prio < MAX_RT_PRIO) && (back ==> prio < MAX_RT_PRIO)
    modifies cpu`leaf, cpu.t.es`linked, cpu.t.es`back, e`prio, e`normalPrio
    modifies cpu.t.qs`bitmap, cpu.t.qs`queue, cpu.t.qs`nrRunning, cpu.t.qs`highestPrio, cpu.t.qs`nrBoosted
    ensures cpu.Abs() == Reprioritised(s, e, prio, normal, head, back)
    ensures (e.linked <==> back) && e.prio == prio && e.normalPrio == normal
    ensures Sound(cpu.Abs()) && Missing(cpu.Abs()) <= Missing(s)
    ensures e.linked ==> AtEnd(e, head)
  {
    hide *;
    TaskIs(cpu, e, s);
    ReprioritisedSound(s, e, prio, normal, head, back);
    ReprioritisedOrder(s, e, prio, normal, head, back);
    if off {
      cpu.DequeueRtEntity(e);
    }
    AssignPrio(cpu, e, prio, normal, cpu.Abs());
    if back {
      cpu.EnqueueRtEntity(e, head);
    }
    TaskIs(cpu, e, Reprioritised(s, e, prio, normal, head, back));
    EndIs(cpu, e, head, s);
  }

  /** rt_mutex_setprio, as far as the real-time run queue goes: the task may be queued or not, and may come
      into the class or leave it.  `wrr` tells whether its policy is SCHED_WRR. */
  method SetTaskPrio(cpu: Cpu, e: RtEntity, prio: nat, onRq: bool, wrr: bool, ghost s: SoundState)
    requires cpu.Rep() && cpu.Abs() == s && e in cpu.t.es && e.myQ == null
    requires e.linked <==> onRq && !wrr && e.prio < MAX_RT_PRIO
    modifies cpu`leaf, cpu.t.es`linked, cpu.t.es`back, e`prio, e`normalPrio
    modifies cpu.t.qs`bitmap, cpu.t.qs`queue, cpu.t.qs`nrRunning, cpu.t.qs`highestPrio, cpu.t.qs`nrBoosted
    ensures cpu.Abs()
         == Reprioritised(s, e, prio, old(e.normalPrio), old(e.prio) < prio, onRq && !wrr && prio < MAX_RT_PRIO)
    ensures e.linked <==> onRq && !wrr && e.prio < MAX_RT_PRIO
    ensures e.prio == prio && e.normalPrio == old(e.normalPrio)
    ensures e.linked ==> AtEnd(e, old(e.prio) < prio)
    ensures Sound(cpu.Abs()) && Missing(cpu.Abs()) <= Missing(s)
  {
    hide *;
    var off := onRq && !wrr && e.prio < MAX_RT_PRIO;
    Reprioritise(cpu, e, prio, e.normalPrio, e.prio < prio, off, onRq && !wrr && prio < MAX_RT_PRIO, s);
  }

  /** __sched_setscheduler with __setscheduler, likewise: a new policy and both priorities; the task goes to the
      tail. */
  method SetTaskScheduler(cpu: Cpu, e: RtEntity, prio: nat, normal: nat, onRq: bool, wasWrr: bool, wrr: bool,
                          ghost s: SoundState)
    requires cpu.Rep() && cpu.Abs() == s && e in cpu.t.es && e.myQ == null
    requires e.linked <==> onRq && !wasWrr && e.prio < MAX_RT_PRIO
    modifies cpu`leaf, cpu.t.es`linked, cpu.t.es`back, e`prio, e`normalPrio
    modifies cpu.t.qs`bitmap, cpu.t.qs`queue, cpu.t.qs`nrRunning, cpu.t.qs`highestPrio, cpu.t.qs`nrBoosted
    ensures cpu.Abs() == Reprioritised(s, e, prio, normal, false, onRq && !wrr && prio < MAX_RT_PRIO)
    ensures e.linked <==> onRq && !wrr && e.prio < MAX_RT_PRIO
    ensures e.prio == prio && e.normalPrio == normal
    ensures e.linked ==> AtEnd(e, false)
    ensures Sound(cpu.Abs()) && Missing(cpu.Abs()) <= Missing(s)
  {
    hide *;
    var off := onRq && !wasWrr && e.prio < MAX_RT_PRIO;
    Reprioritise(cpu, e, prio, normal, false, off, onRq && !wrr && prio < MAX_RT_PRIO, s);
  }

  lemma TaskIs(cpu: Cpu, e: RtEntity, s: State)
    requires cpu.Rep() && cpu.Abs() == s && e in cpu.t.es
    ensures Tree(s.t) && s.t == cpu.t && e in s.t.es && s.prio[e] == e.prio && s.normal[e] == e.normalPrio
    ensures e.linked <==> e in s.on
  {
  }

  // ---------------------------------------------------------------- yielding

  /** requeue_rt_entity. */
  method RequeueRtEntity(cpu: Cpu, e: RtEntity, head: bool, ghost s: State)
    requires cpu.Abs() == s && e in cpu.t.es && (e.linked ==> SePrio(e) < MAX_RT_PRIO)
    modifies e.rtRq`queue
    ensures cpu.Abs() == Move(s, e, head)
  {
    cpu.Reads(e);
    if e.linked {
      var q, p := e.rtRq, SePrio(e);
      q.queue := q.queue[p := Insert(Remove(q.queue[p], e), e, head)];
    }
    cpu.AbsAfter(e);
  }

  /** What is still to be moved on the way up. */
  ghost predicate Moving(cpu: Cpu, t: Topo, c: seq<RtEntity>, se: RtEntity?)
    reads cpu, t.es, t.qs
  {
    cpu.t == t && Wf(cpu.Abs()) && Sound(cpu.Abs()) && IsPath(t, c) && se == First(c)
  }

  lemma MovingStep(s: State, t: Topo, c: seq<RtEntity>, head: bool)
    requires Sound(s) && s.t == t && IsPath(t, c) && c != []
    ensures IsPath(t, c[1..]) && c[0].parent == First(c[1..]) && c[0].rtRq in t.qs
    ensures (c[0] in s.on ==> Prio(s, c[0]) < MAX_RT_PRIO)
    ensures Sound(Move(s, c[0], head))
    ensures (forall e :: e in c ==> e in t.es) && MoveUp(s, c, head) == MoveUp(Move(s, c[0], head), c[1..], head)
  {
    RtOps.TailIsPath(t, c);
    assert c[0].parent == Above(c, 0);
    MoveKeeps(s, c[0], head);
  }

  /** One round of the loop of requeue_task_rt. */
  method MoveNext(cpu: Cpu, se: RtEntity, head: bool, ghost t: Topo, ghost c: seq<RtEntity>)
    requires Moving(cpu, t, c, se)
    modifies se.rtRq`queue
    ensures Moving(cpu, t, c[1..], se.parent)
    ensures (forall e :: e in c ==> e in t.es) && MoveUp(cpu.Abs(), c[1..], head) == MoveUp(old(cpu.Abs()), c, head)
  {
    ghost var s: State := cpu.Abs();
    MovingStep(s, t, c, head);
    cpu.Reads(se);
    hide Sound;
    hide Move;
    hide MoveUp;
    hide IsPath;
    RequeueRtEntity(cpu, se, head, s);
  }

  /** x has gone to one end of the list it is on, if it is on one, and the lists of its queue are otherwise as they
      were. */
  twostate predicate MovedIn(x: RtEntity, head: bool)
    reads x, x.myQ, x.rtRq
  {
    var a, b, p := old(x.rtRq.queue), x.rtRq.queue, SePrio(x);
    && x.linked == old(x.linked) && p == old(SePrio(x))
    && if x.linked then p < |a| == |b| && MovedTo(a[p], b[p], x, head) && b == a[p := b[p]] else b == a
  }

  /** What the snapshots say about the lists. */
  twostate lemma MovedFields(cpu: Cpu, new t: Topo, new c: seq<RtEntity>, new head: bool)
    requires cpu.t == t == old(cpu.t) && Wf(old(cpu.Abs())) && Sound(old(cpu.Abs())) && IsPath(t, c)
    requires (forall x :: x in c ==> x in t.es) && cpu.Abs() == MoveUp(old(cpu.Abs()), c, head)
    requires forall x :: x in t.es ==> x.linked == old(x.linked) && x.prio == old(x.prio)
    requires forall q :: q in t.qs ==> q.highestPrio == old(q.highestPrio)
    ensures forall x :: x in c ==> MovedIn(x, head)
    ensures forall q :: q in t.qs && !RtOps.OnPath(c, q) ==> q.queue == old(q.queue)
  {
    var s: State := old(cpu.Abs());
    assert s.t == t && Consistent(s);
    KeysKept(cpu, t);
    forall q | q in t.qs && !RtOps.OnPath(c, q) ensures q.queue == old(q.queue) {
      MoveUpElsewhere(s, c, head, q);
      QueueIs(cpu, q);
    }
    hide *;
    forall i | 0 <= i < |c| ensures MovedIn(c[i], head) {
      MoveUpOrder(s, c, head, i);
      InFields(cpu, t, c[i], head);
    }
  }

  twostate lemma QueueIs(cpu: Cpu, new q: RtRq)
    requires cpu.t == old(cpu.t) && q in cpu.t.qs
    ensures cpu.Abs().q[q].queue == q.queue && old(cpu.Abs()).q[q].queue == old(q.queue)
  {
    assert cpu.Abs().q[q] == Snap(q) && old(cpu.Abs()).q[q] == old(Snap(q));
  }

  twostate lemma KeysKept(cpu: Cpu, new t: Topo)
    requires cpu.t == t == old(cpu.t) && Wf(old(cpu.Abs()))
    requires forall x :: x in t.es ==> x.prio == old(x.prio)
    requires forall q :: q in t.qs ==> q.highestPrio == old(q.highestPrio)
    ensures forall x :: x in t.es ==> SePrio(x) == old(SePrio(x))
  {
  }

  twostate lemma InFields(cpu: Cpu, new t: Topo, new x: RtEntity, new head: bool)
    requires cpu.t == t == old(cpu.t) && Wf(old(cpu.Abs())) && Wf(cpu.Abs()) && Consistent(old(cpu.Abs()))
    requires x in t.es && MovedWithin(old(cpu.Abs()), cpu.Abs(), x, head)
    requires x.linked == old(x.linked) && SePrio(x) == old(SePrio(x))
    ensures MovedIn(x, head)
  {
    var s: State := old(cpu.Abs());
    cpu.Reads(x);
    NowReads(cpu, x);
    OldReads(cpu, x);
    hide Sound;
    hide Consistent;
    hide MovedTo;
    hide TakenFrom;
    hide AddedTo;
    hide Cpu.Abs;
    hide Prio;
    hide SePrio;
    hide Snap;
    hide Wf;
    SoundPlace(s, x);
  }

  lemma SoundPlace(s: State, x: RtEntity)
    requires Consistent(s) && x in s.t.es
    ensures (x in s.on ==> Prio(s, x) < MAX_RT_PRIO)
    ensures Place(s, x) == if x in s.on then Prio(s, x) else MAX_RT_PRIO
  {
  }

  lemma NowReads(cpu: Cpu, x: RtEntity)
    requires Wf(cpu.Abs()) && x in cpu.t.es
    ensures cpu.Abs().q[x.rtRq].queue == x.rtRq.queue && |x.rtRq.queue| == MAX_RT_PRIO
  {
    cpu.Reads(x);
  }

  /** Cpu.Reads in the state before. */
  twostate lemma OldReads(cpu: Cpu, new x: RtEntity)
    requires Wf(old(cpu.Abs())) && x in old(cpu.t).es
    ensures var s: State := old(cpu.Abs());
            && s.t == old(cpu.t) && x.rtRq in s.q && s.q[x.rtRq].queue == old(x.rtRq.queue)
            && |old(x.rtRq.queue)| == MAX_RT_PRIO
            && (old(x.linked) <==> x in s.on) && Prio(s, x) == old(SePrio(x))
  {
    assert old(cpu.Abs()).q[x.rtRq] == old(Snap(x.rtRq));
    assert x.myQ != null ==> old(cpu.Abs()).q[x.myQ] == old(Snap(x.myQ));
  }

  /** requeue_task_rt, and with it yield_task_rt: the task and its groups change places within their lists, and
      nothing else does. */
  method RequeueTaskRt(cpu: Cpu, e: RtEntity, head: bool, ghost t: Topo, ghost c: seq<RtEntity>)
    requires Moving(cpu, t, c, e)
    modifies t.qs`queue
    ensures forall x :: x in c ==> x in t.es
    ensures Moving(cpu, t, [], null) && cpu.Abs() == MoveUp(old(cpu.Abs()), c, head)
    ensures Missing(cpu.Abs()) == Missing(old(cpu.Abs()))
    ensures forall x :: x in c ==> MovedIn(x, head)
    ensures forall q :: q in t.qs && !RtOps.OnPath(c, q) ==> q.queue == old(q.queue)
  {
    MoveUpKeeps(cpu.Abs(), c, head);
    MovingOn(cpu, e, head, t, c);
    MovedFields(cpu, t, c, head);
  }

  /** The loop of requeue_task_rt. */
  method MovingOn(cpu: Cpu, e: RtEntity, head: bool, ghost t: Topo, ghost c: seq<RtEntity>)
    requires Moving(cpu, t, c, e)
    modifies t.qs`queue
    ensures forall x :: x in c ==> x in t.es
    ensures Moving(cpu, t, [], null) && cpu.Abs() == MoveUp(old(cpu.Abs()), c, head)
  {
    MoveUpKeeps(cpu.Abs(), c, head);
    var se: RtEntity? := e;
    ghost var d := c;
    ghost var r := MoveUp(cpu.Abs(), c, head);
    while se != null
      invariant Moving(cpu, t, d, se)
      invariant (forall x :: x in d ==> x in t.es) && MoveUp(cpu.Abs(), d, head) == r
      decreases |d|
    {
      MovingStep(cpu.Abs(), t, d, head);
      MoveNext(cpu, se, head, t, d);
      se, d := se.parent, d[1..];
    }
    assert d == [];
  }

  // ---------------------------------------------------------------- growing

  lemma JoinedAbs(cpu: Cpu, e: RtEntity, s: SoundState)
    requires Tree(s.t) && IsNew(s.t, e) && e.rtRq in s.t.level && !e.linked
    requires e.myQ != null ==> Balanced(Snap(e.myQ)) && e.myQ.nrRunning == 0 && e.myQ.nrBoosted == 0
    requires cpu.t == Grown(s.t, e) && cpu.leaf == s.leaf && Tree(cpu.t)
    requires (forall x :: x in s.t.es ==>
                s.prio[x] == x.prio && s.normal[x] == x.normalPrio && (x in s.on <==> x.linked))
    requires (forall q :: q in s.t.qs ==> s.q[q] == Snap(q))
    ensures Wf(cpu.Abs()) && Joined(s, cpu.Abs(), e)
  {
    JoinedWf(cpu, e, s);
    JoinedOn(cpu, e, s.on);
    assert s.t.es <= cpu.t.es && s.q.Keys <= cpu.t.qs && (e.myQ != null ==> e.myQ in cpu.t.qs);
    NrRunning(if e.myQ == null then e.rtRq else e.myQ);
    hide Tree;
    hide Wf;
    hide Snap;
    hide Balanced;
    hide Linkage;
    hide IsNew;
    hide Grown;
  }

  lemma JoinedOn(cpu: Cpu, e: RtEntity, on: set<RtEntity>)
    requires on <= cpu.t.es && e !in on && !e.linked
    requires forall x :: x in cpu.t.es && x != e ==> (x in on <==> x.linked)
    ensures cpu.Abs().on == on
  {
    hide Snap;
  }

  lemma JoinedWf(cpu: Cpu, e: RtEntity, s: SoundState)
    requires Tree(s.t) && IsNew(s.t, e) && e.rtRq in s.t.level
    requires e.myQ != null ==> Balanced(Snap(e.myQ)) && e.myQ.nrRunning == 0 && e.myQ.nrBoosted == 0
    requires cpu.t == Grown(s.t, e) && Tree(cpu.t)
    requires (forall q :: q in s.t.qs ==> s.q[q] == Snap(q))
    ensures Wf(cpu.Abs())
  {
  }

  /** init_tg_rt_entry, or the birth of a task: an entity that is on no list, with an empty queue if it stands
      for a group. */
  method Join(cpu: Cpu, e: RtEntity, ghost s: SoundState)
    requires cpu.Rep() && cpu.Abs() == s && IsNew(cpu.t, e) && !e.linked && e.rtRq in cpu.t.level
    requires e.myQ != null ==> Balanced(Snap(e.myQ)) && e.myQ.nrRunning == 0 && e.myQ.nrBoosted == 0
    modifies cpu`t, cpu`tgSe
    ensures cpu.Rep() && Wf(cpu.Abs()) && cpu.t == Grown(s.t, e)
    ensures Sound(cpu.Abs()) && Missing(cpu.Abs()) == Missing(s)
  {
    GrownTree(cpu.t, e);
    cpu.t := Grown(cpu.t, e);
    if e.myQ != null {
      cpu.tgSe := cpu.tgSe[e.myQ := e];
    }
    JoinedAbs(cpu, e, s);
    hide *;
    JoinedSound(s, cpu.Abs(), e);
  }

  lemma EmptyQueue(q: RtRq)
    requires q.bitmap == seq(MAX_RT_PRIO + 1, p => p == MAX_RT_PRIO) && q.queue == seq(MAX_RT_PRIO, p => [])
    requires q.nrRunning == 0 && q.highestPrio == MAX_RT_PRIO
    ensures Balanced(Snap(q))
  {
    TotalLenZero(q.queue);
  }

  lemma NewIsNew(cpu: Cpu, e: RtEntity)
    requires cpu.Rep() && e !in cpu.t.es && e.rtRq in cpu.t.qs && (e.myQ != null ==> e.myQ !in cpu.t.qs)
    requires e.parent == if e.rtRq in cpu.t.tgSe then cpu.t.tgSe[e.rtRq] else null
    ensures IsNew(cpu.t, e) && cpu.Abs().t == cpu.t
  {
  }

  /** alloc_rt_sched_group and init_tg_rt_entry: a new group below the queue `above`. */
  method NewGroup(cpu: Cpu, above: RtRq, parent: RtEntity?, runtime: nat, period: nat, ghost s: SoundState)
    returns (g: RtEntity)
    requires cpu.Rep() && cpu.Abs() == s && above in cpu.t.qs && above in cpu.t.level
    requires parent == if above in cpu.t.tgSe then cpu.t.tgSe[above] else null
    modifies cpu`t, cpu`tgSe
    ensures fresh(g) && g.myQ != null && fresh(g.myQ) && g.rtRq == above && !g.linked
    ensures cpu.Rep() && Wf(cpu.Abs()) && cpu.t == Grown(s.t, g)
    ensures Sound(cpu.Abs()) && Missing(cpu.Abs()) == Missing(s)
    ensures Used(g.myQ) == Usage(false, 0, runtime) && g.myQ.bwRuntime == runtime && g.myQ.bwPeriod == period
  {
    hide *;
    var q := new RtRq(runtime, period);
    EmptyQueue(q);
    UsedIs(q);
    g := new RtEntity(above, parent, q, 0, 0);
    NewIsNew(cpu, g);
    Join(cpu, g, s);
  }

  /** The birth of a task in the group of the queue `home`. */
  method NewTask(cpu: Cpu, home: RtRq, parent: RtEntity?, prio: nat, ghost s: SoundState) returns (e: RtEntity)
    requires cpu.Rep() && cpu.Abs() == s && home in cpu.t.qs && home in cpu.t.level
    requires parent == if home in cpu.t.tgSe then cpu.t.tgSe[home] else null
    modifies cpu`t, cpu`tgSe
    ensures fresh(e) && e.myQ == null && e.rtRq == home && !e.linked && e.prio == e.normalPrio == prio
    ensures cpu.Rep() && Wf(cpu.Abs()) && cpu.t == Grown(s.t, e)
    ensures Sound(cpu.Abs()) && Missing(cpu.Abs()) == Missing(s)
  {
    hide *;
    e := new RtEntity(home, parent, null, prio, prio);
    NewIsNew(cpu, e);
    Join(cpu, e, s);
  }
}
