/** The run queue itself: the loops of rt.c over entity stacks, proved against RtOps. */
module RtRunqueue {
  import opened Kernel
  import opened RtTypes
  import opened Lists
  import opened RtState
  import RtOps
  import opened RtTheorems
  import opened RtChanges

  /** rt_rq_throttled. */
  predicate Throttled(q: RtRq)
    reads q
  {
    q.throttled && q.nrBoosted == 0
  }

  /** A group whose queue is empty or throttled is not enqueued. */
  predicate CanQueue(q: RtRq)
    reads q
  {
    !Throttled(q) && q.nrRunning != 0
  }

  function SePrio(e: RtEntity): nat
    reads e, e.myQ
  {
    if e.myQ != null then e.myQ.highestPrio else e.prio
  }

  predicate SeBoosted(e: RtEntity)
    reads e, e.myQ
  {
    if e.myQ != null then e.myQ.nrBoosted != 0 else e.prio != e.normalPrio
  }

  ghost function Snap(q: RtRq): Q
    reads q`bitmap, q`queue, q`nrRunning, q`highestPrio, q`nrBoosted, q`throttled
  {
    Q(q.bitmap, q.queue, q.nrRunning, q.highestPrio, q.nrBoosted, q.throttled)
  }

  /** list_add, __set_bit and inc_rt_tasks. */
  method AddTo(q: RtRq, e: RtEntity, p: nat, boosted: bool, head: bool)
    requires Sized(Snap(q)) && p < MAX_RT_PRIO
    modifies q`bitmap, q`queue, q`nrRunning, q`highestPrio, q`nrBoosted
    ensures Snap(q) == Linked(old(Snap(q)), e, p, boosted, head)
  {
    q.queue := q.queue[p := Insert(q.queue[p], e, head)];
    q.bitmap := q.bitmap[p := true];
    q.nrRunning := q.nrRunning + 1;
    if p < q.highestPrio {
      q.highestPrio := p;
    }
    if boosted {
      q.nrBoosted := q.nrBoosted + 1;
    }
  }

  /** list_del_init, __clear_bit and dec_rt_tasks. */
  method DeleteFrom(q: RtRq, e: RtEntity, p: nat, boosted: bool)
    requires Sized(Snap(q)) && p < MAX_RT_PRIO
    modifies q`bitmap, q`queue, q`nrRunning, q`highestPrio, q`nrBoosted
    ensures Snap(q) == Unlinked(old(Snap(q)), e, p, boosted)
  {
    q.queue := q.queue[p := Remove(q.queue[p], e)];
    if q.queue[p] == [] {
      q.bitmap := q.bitmap[p := false];
    }
    q.nrRunning := q.nrRunning - 1;
    if q.nrRunning != 0 {
      if p == q.highestPrio {
        q.highestPrio := FirstBit(q.bitmap, 0);
      }
    } else {
      q.highestPrio := MAX_RT_PRIO;
    }
    if boosted {
      q.nrBoosted := q.nrBoosted - 1;
    }
  }

  lemma NrRunning(q: RtRq)
    ensures Snap(q).nrRunning == q.nrRunning && Snap(q).nrBoosted == q.nrBoosted
  {
  }

  lemma UnlinkedLen(q: Q, e: RtEntity, p: nat, boosted: bool)
    requires Sized(q) && p < MAX_RT_PRIO
    ensures Unlinked(q, e, p, boosted).nrRunning == q.nrRunning - 1
  {
  }

  function Below(c: seq<RtEntity>, i: nat): RtEntity?
    requires i <= |c|
  {
    if i == 0 then null else c[i - 1]
  }

  /** struct rq: one CPU, with the groups and tasks that live on it. */
  class Cpu {
    const root: RtRq
    var leaf: seq<RtRq>              // leaf_rt_rq_list
    var tgSe: map<RtRq, RtEntity>    // rt_rq->tg->rt_se[cpu]
    ghost var t: Topo

    /** The snapshot the operations are specified on. */
    ghost function Abs(): RawState
      reads this`t, this`leaf, t.es`linked, t.es`prio, t.es`normalPrio
      reads t.qs`bitmap, t.qs`queue, t.qs`nrRunning, t.qs`highestPrio, t.qs`nrBoosted, t.qs`throttled
    {
      RawState.State(t, map q | q in t.qs :: Snap(q), set e | e in t.es && e.linked,
                     map e | e in t.es :: e.prio, map e | e in t.es :: e.normalPrio, leaf)
    }

    /** The fields agree with the tree. */
    ghost predicate Rep()
      reads this`t, this`tgSe
    {
      Tree(t) && t.root == root && t.tgSe == tgSe
    }

    /** A CPU whose only group is the root, with nothing queued. */
    constructor (runtime: nat, period: nat)
      ensures Rep() && Wf(Abs()) && Valid(Abs()) && fresh(root) && t.qs == {root} && t.es == {} && leaf == []
    {
      var q := new RtRq(runtime, period);
      root, leaf, tgSe := q, [], map[];
      t := Topo(q, {q}, {}, map[], map[q := 0], 0);
      new;
      TotalLenZero(root.queue);
      assert Abs().q[root] == Snap(root) && Balanced(Snap(root));
      EmptyValid(Abs());
    }

    /** What the code reads is what the snapshot says. */
    lemma Reads(e: RtEntity)
      requires Wf(Abs()) && e in t.es
      ensures e.rtRq in t.qs && Abs().t == t && Abs().leaf == leaf
      ensures Abs().q[e.rtRq] == Snap(e.rtRq) && Snap(e.rtRq).nrRunning == e.rtRq.nrRunning && Sized(Snap(e.rtRq))
      ensures SePrio(e) == Prio(Abs(), e) && SeBoosted(e) == Boosted(Abs(), e)
      ensures e.linked <==> e in Abs().on
      ensures e.myQ != null ==> e.myQ in t.qs && Abs().q[e.myQ] == Snap(e.myQ)
      ensures e.myQ != null ==> (CanQueue(e.myQ) <==> Runnable(Abs().q[e.myQ]))
    {
      assert e.myQ != null ==> e.myQ in t.qs && Abs().q[e.myQ] == Snap(e.myQ);
    }

    /** How the snapshot follows a change of one queue and of one entity's linkage. */
    twostate lemma AbsAfter(e: RtEntity)
      requires t == old(t) && e in t.es && e.rtRq in t.qs
      requires forall x :: x in t.es ==> x.prio == old(x.prio) && x.normalPrio == old(x.normalPrio)
      requires forall x :: x in t.es && x != e ==> x.linked == old(x.linked)
      requires forall q :: q in t.qs && q != e.rtRq ==> Snap(q) == old(Snap(q))
      ensures var s := old(Abs());
              Abs() == s.(q := s.q[e.rtRq := Snap(e.rtRq)],
                          on := if e.linked then s.on + {e} else s.on - {e},
                          leaf := leaf)
    {
      var s := old(Abs());
      assert Abs().q == s.q[e.rtRq := Snap(e.rtRq)];
      assert Abs().on == if e.linked then s.on + {e} else s.on - {e};
      assert Abs().prio == s.prio && Abs().normal == s.normal;
    }

    // -------------------------------------------------------------- one entity

    lemma LinkIs(s: State, e: RtEntity, head: bool)
      requires e in s.t.es && Prio(s, e) < MAX_RT_PRIO
      ensures var q := s.q[e.rtRq];
              && Link(s, e, head) == s.(q := s.q[e.rtRq := Linked(q, e, Prio(s, e), Boosted(s, e), head)],
                                        on := s.on + {e},
                                        leaf := if q.nrRunning == 0 then [e.rtRq] + s.leaf else s.leaf)
              && Unlink(s, e) == s.(q := s.q[e.rtRq := Unlinked(q, e, Prio(s, e), Boosted(s, e))],
                                    on := s.on - {e},
                                    leaf := if q.nrRunning - 1 == 0 then Remove(s.leaf, e.rtRq) else s.leaf)
    {
    }

    /** The part of __enqueue_rt_entity that links. */
    method LinkOne(e: RtEntity, head: bool)
      requires Wf(Abs()) && e in t.es && !e.linked && SePrio(e) < MAX_RT_PRIO
      modifies this`leaf, e`linked
      modifies e.rtRq`bitmap, e.rtRq`queue, e.rtRq`nrRunning, e.rtRq`highestPrio, e.rtRq`nrBoosted
      ensures Prio(old(Abs()), e) < MAX_RT_PRIO && Abs() == Link(old(Abs()), e, head)
    {
      hide *;
      var q := e.rtRq;
      Reads(e);
      LinkIs(Abs(), e, head);
      var p, boosted := SePrio(e), SeBoosted(e);
      if q.nrRunning == 0 {
        leaf := [q] + leaf;
      }
      e.linked := true;
      AddTo(q, e, p, boosted, head);
      AbsAfter(e);
    }

    /** __enqueue_rt_entity. */
    method EnqueueOne(e: RtEntity, head: bool)
      requires Wf(Abs()) && e in t.es && !e.linked
      requires (e.myQ == null || CanQueue(e.myQ)) ==> SePrio(e) < MAX_RT_PRIO
      modifies this`leaf, e`linked
      modifies e.rtRq`bitmap, e.rtRq`queue, e.rtRq`nrRunning, e.rtRq`highestPrio, e.rtRq`nrBoosted
      ensures Abs() == RtOps.EnqueueOne(old(Abs()), e, head)
    {
      Reads(e);
      if e.myQ != null && (Throttled(e.myQ) || e.myQ.nrRunning == 0) {
        return;
      }
      LinkOne(e, head);
    }

    /** __dequeue_rt_entity. */
    method DequeueOne(e: RtEntity)
      requires Wf(Abs()) && e in t.es && e.linked && SePrio(e) < MAX_RT_PRIO
      modifies this`leaf, e`linked
      modifies e.rtRq`bitmap, e.rtRq`queue, e.rtRq`nrRunning, e.rtRq`highestPrio, e.rtRq`nrBoosted
      ensures Prio(old(Abs()), e) < MAX_RT_PRIO && Abs() == Unlink(old(Abs()), e)
    {
      hide *;
      var q := e.rtRq;
      Reads(e);
      LinkIs(Abs(), e, false);
      var p, boosted := SePrio(e), SeBoosted(e);
      e.linked := false;
      DeleteFrom(q, e, p, boosted);
      if q.nrRunning == 0 {
        leaf := Remove(leaf, q);
      }
      NrRunning(q);
      UnlinkedLen(old(Snap(q)), e, p, boosted);
      AbsAfter(e);
    }

    // -------------------------------------------------------------- the loops

    /** The first loop of dequeue_rt_stack strings the path together from the top. */
    method StringBack(e: RtEntity, ghost c: seq<RtEntity>) returns (back: RtEntity?)
      requires IsPath(t, c) && First(c) == e
      modifies t.es`back
      ensures back == Below(c, |c|) && forall i :: 0 <= i < |c| ==> c[i].back == Below(c, i)
    {
      back := null;
      var se: RtEntity? := e;
      ghost var k := 0;
      while se != null
        invariant 0 <= k <= |c| && se == (if k < |c| then c[k] else null) && back == Below(c, k)
        invariant forall i :: 0 <= i < k ==> c[i].back == Below(c, i)
        decreases |c| - k
      {
        assert c[k].parent == Above(c, k);
        se.back := back;
        back := se;
        se := se.parent;
        k := k + 1;
      }
    }

    /** One round of the downward loop of dequeue_rt_stack. */
    method DequeueNext(se: RtEntity, ghost s: State, ghost c: seq<RtEntity>, ghost k: nat)
      requires Consistent(s) && s.t == t && IsPath(t, c) && k < |c| && se == c[k]
      requires Abs() == OffFrom(s, c, k + 1)
      modifies this`leaf, se`linked
      modifies se.rtRq`bitmap, se.rtRq`queue, se.rtRq`nrRunning, se.rtRq`highestPrio, se.rtRq`nrBoosted
      ensures Abs() == OffFrom(s, c, k)
    {
      OffStep(s, c, k);
      Reads(se);
      if se.linked {
        DequeueOne(se);
      }
    }

    /** The downward loop of dequeue_rt_stack. */
    method DequeuePath(back: RtEntity?, ghost c: seq<RtEntity>)
      requires Wf(Abs()) && Consistent(Abs()) && IsPath(t, c) && back == Below(c, |c|)
      requires forall i :: 0 <= i < |c| ==> c[i].back == Below(c, i)
      modifies this`leaf, t.es`linked
      modifies t.qs`bitmap, t.qs`queue, t.qs`nrRunning, t.qs`highestPrio, t.qs`nrBoosted
      ensures Abs() == RtOps.Off(old(Abs()), c)
    {
      ghost var s: State := Abs();
      var se := back;
      ghost var k := |c|;
      while se != null
        invariant 0 <= k <= |c| && se == Below(c, k) && Abs() == OffFrom(s, c, k)
        decreases k
      {
        k := k - 1;
        assert se == c[k] && se.back == Below(c, k) && se.rtRq in t.qs;
        DequeueNext(se, s, c, k);
        se := se.back;
      }
      assert c[0..] == c;
    }

    /** dequeue_rt_stack. */
    method DequeueRtStack(e: RtEntity)
      requires Rep() && Wf(Abs()) && Consistent(Abs()) && e in t.es
      modifies this`leaf, t.es`linked, t.es`back
      modifies t.qs`bitmap, t.qs`queue, t.qs`nrRunning, t.qs`highestPrio, t.qs`nrBoosted
      ensures Abs() == RtOps.Off(old(Abs()), Chain(t, e))
    {
      ghost var c := Chain(t, e);
      var back := StringBack(e, c);
      DequeuePath(back, c);
    }

    /** One round of the upward loop of enqueue_rt_entity. */
    method EnqueueNext(se: RtEntity, head: bool, ghost c: seq<RtEntity>)
      requires Wf(Abs()) && Pending(Abs(), c) && First(c) == se
      modifies this`leaf, se`linked
      modifies se.rtRq`bitmap, se.rtRq`queue, se.rtRq`nrRunning, se.rtRq`highestPrio, se.rtRq`nrBoosted
      ensures Wf(Abs()) && Pending(Abs(), c[1..]) && se.parent == First(c[1..])
      ensures RtOps.EnqueueUp(Abs(), c[1..], head) == RtOps.EnqueueUp(old(Abs()), c, head)
    {
      EnqueueStep(Abs(), c, head);
      Reads(se);
      EnqueueOne(se, head);
    }

    /** One round of the upward loop of dequeue_rt_entity. */
    method RequeueNext(se: RtEntity, ghost c: seq<RtEntity>)
      requires Wf(Abs()) && Pending(Abs(), c) && First(c) == se
      modifies this`leaf, se`linked
      modifies se.rtRq`bitmap, se.rtRq`queue, se.rtRq`nrRunning, se.rtRq`highestPrio, se.rtRq`nrBoosted
      ensures Wf(Abs()) && Pending(Abs(), c[1..]) && se.parent == First(c[1..])
      ensures RtOps.RequeueUp(Abs(), c[1..]) == RtOps.RequeueUp(old(Abs()), c)
    {
      RequeueStep(Abs(), c);
      Reads(se);
      if se.myQ != null && se.myQ.nrRunning != 0 {
        EnqueueOne(se, false);
      }
    }

    method EnqueuePath(e: RtEntity, head: bool, ghost c: seq<RtEntity>)
      requires Wf(Abs()) && Pending(Abs(), c) && First(c) == e
      modifies this`leaf, t.es`linked
      modifies t.qs`bitmap, t.qs`queue, t.qs`nrRunning, t.qs`highestPrio, t.qs`nrBoosted
      ensures Abs() == RtOps.EnqueueUp(old(Abs()), c, head)
    {
      ghost var r := RtOps.EnqueueUp(Abs(), c, head);
      ghost var d := c;
      var se: RtEntity? := e;
      while se != null
        invariant Wf(Abs()) && Pending(Abs(), d) && se == First(d) && RtOps.EnqueueUp(Abs(), d, head) == r
        decreases |d|
      {
        assert se in t.es && se.rtRq in t.qs;
        EnqueueNext(se, head, d);
        se, d := se.parent, d[1..];
      }
    }

    method RequeuePath(e: RtEntity, ghost c: seq<RtEntity>)
      requires Wf(Abs()) && Pending(Abs(), c) && First(c) == e
      modifies this`leaf, t.es`linked
      modifies t.qs`bitmap, t.qs`queue, t.qs`nrRunning, t.qs`highestPrio, t.qs`nrBoosted
      ensures Abs() == RtOps.RequeueUp(old(Abs()), c)
    {
      ghost var r := RtOps.RequeueUp(Abs(), c);
      ghost var d := c;
      var se: RtEntity? := e;
      while se != null
        invariant Wf(Abs()) && Pending(Abs(), d) && se == First(d) && RtOps.RequeueUp(Abs(), d) == r
        decreases |d|
      {
        assert se in t.es && se.rtRq in t.qs;
        RequeueNext(se, d);
        se, d := se.parent, d[1..];
      }
    }

    /** enqueue_rt_entity. */
    method EnqueueRtEntity(e: RtEntity, head: bool)
      requires Rep() && Wf(Abs()) && e in t.es && SoundBut(Abs(), Chain(t, e))
      requires e.myQ == null ==> e.prio < MAX_RT_PRIO
      modifies this`leaf, t.es`linked, t.es`back
      modifies t.qs`bitmap, t.qs`queue, t.qs`nrRunning, t.qs`highestPrio, t.qs`nrBoosted
      ensures Abs() == RtOps.Enqueue(old(Abs()), e, head)
      ensures Sound(Abs()) && Missing(Abs()) == Missing(old(Abs())) - RtOps.Members(Chain(t, e))
      ensures e.myQ == null ==> e.linked
    {
      ghost var c := Chain(t, e);
      RtOps.EnqueueSound(Abs(), e, head);
      OffPending(Abs(), c);
      DequeueRtStack(e);
      EnqueuePath(e, head, c);
      Reads(e);
    }

    /** dequeue_rt_entity. */
    method DequeueRtEntity(e: RtEntity)
      requires Rep() && Wf(Abs()) && e in t.es && SoundBut(Abs(), Chain(t, e))
      requires e.myQ == null ==> e.prio < MAX_RT_PRIO
      modifies this`leaf, t.es`linked, t.es`back
      modifies t.qs`bitmap, t.qs`queue, t.qs`nrRunning, t.qs`highestPrio, t.qs`nrBoosted
      ensures Abs() == RtOps.Dequeue(old(Abs()), e)
      ensures Sound(Abs()) && Missing(Abs()) == Missing(old(Abs())) - RtOps.Members(Chain(t, e))
      ensures e.myQ == null ==> !e.linked
    {
      ghost var c := Chain(t, e);
      RtOps.DequeueSound(Abs(), e);
      OffPending(Abs(), c);
      DequeueRtStack(e);
      RequeuePath(e, c);
      Reads(e);
    }
  }
}
