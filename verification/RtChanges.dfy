/** Changes that are not an enqueue or a dequeue: throttle flags, task priorities, places in a list,
    new groups and tasks. */
module RtChanges {
  import opened Kernel
  import opened RtTypes
  import opened Lists
  import opened RtState
  import opened RtOps
  import opened RtTheorems

  // ---------------------------------------------------------------- flags, priorities, places in a list

  /** The linked entities have the same keys, and every list the same members. */
  ghost predicate Alike(s: State, r: State) {
    && r.t == s.t && r.on == s.on && r.leaf == s.leaf
    && (forall x :: x in s.on ==> Prio(r, x) == Prio(s, x) && Boosted(r, x) == Boosted(s, x))
    && (forall q {:trigger r.q[q]} :: q in s.q ==>
          Balanced(r.q[q]) && r.q[q].nrRunning == s.q[q].nrRunning && r.q[q].nrBoosted == s.q[q].nrBoosted)
    && (forall q, p {:trigger r.q[q].queue[p]} :: q in s.q && 0 <= p < MAX_RT_PRIO ==>
          SameMembers(s.q[q].queue[p], r.q[q].queue[p]))
  }

  ghost predicate SameMembers(a: seq<RtEntity>, b: seq<RtEntity>) {
    NoDup(b) && (forall x :: x in a ==> x in b) && (forall x :: x in b ==> x in a)
  }

  lemma AlikeConsistent(s: State, r: State)
    requires Consistent(s) && Alike(s, r)
    ensures Consistent(r)
  {
    forall q, p | q in r.q && 0 <= p < MAX_RT_PRIO ensures ListOk(r, q, p) {
      assert ListOk(s, q, p);
      assert SameMembers(s.q[q].queue[p], r.q[q].queue[p]);
    }
    forall q | q in r.q ensures CountsOk(r, q) {
      assert CountsOk(s, q);
      assert BoostedOn(r, q) == BoostedOn(s, q);
    }
  }

  /** Only throttle flags differ. */
  ghost predicate OnlyFlags(s: State, r: State) {
    && r.t == s.t && r.on == s.on && r.leaf == s.leaf && r.prio == s.prio && r.normal == s.normal
    && forall q {:trigger r.q[q]} :: q in s.q ==> r.q[q] == s.q[q].(throttled := r.q[q].throttled)
  }

  /** Throttle flags concern the groups' standing only. */
  lemma FlagsKeep(s: State, r: State)
    requires Consistent(s) && OnlyFlags(s, r)
    ensures Consistent(r)
  {
    forall x | x in s.q ensures Balanced(r.q[x]) {
      assert CountsOk(s, x);
    }
    forall x, p | x in s.q && 0 <= p < MAX_RT_PRIO ensures SameMembers(s.q[x].queue[p], r.q[x].queue[p]) {
      assert ListOk(s, x, p);
    }
    AlikeConsistent(s, r);
  }

  ghost function SetThrottled(s: State, q: RtRq, b: bool): State
    requires q in s.q
  {
    s.(q := s.q[q := s.q[q].(throttled := b)])
  }

  /** The entity that stands for the group of queue q; the root has none. */
  ghost function Own(t: Topo, q: RtRq): seq<RtEntity> {
    if q in t.tgSe then [t.tgSe[q]] else []
  }

  // ---------------------------------------------------------------- a group leaves, a group comes back

  /** sched_rt_rq_enqueue would put the group of q back. */
  ghost predicate GoesBack(s: State, q: RtRq)
    requires q in s.q
  {
    q in s.t.tgSe && s.q[q].nrRunning != 0 && s.t.tgSe[q] !in s.on
  }

  /** sched_rt_rq_enqueue. */
  ghost function EnqueueGroup(s: State, q: RtRq): (r: State)
    requires Tree(s.t) && q in s.t.qs
    ensures r.t == s.t
  {
    if GoesBack(s, q) then Enqueue(s, s.t.tgSe[q], false) else s
  }

  /** sched_rt_rq_dequeue. */
  ghost function DequeueGroup(s: State, q: RtRq): (r: State)
    requires Tree(s.t) && q in s.t.qs
    ensures r.t == s.t
  {
    if q in s.t.tgSe && s.t.tgSe[q] in s.on then Dequeue(s, s.t.tgSe[q]) else s
  }

  lemma FootInChain(t: Topo, e: RtEntity)
    requires Tree(t) && e in t.es
    ensures e in Members(Chain(t, e))
  {
    assert Chain(t, e)[0] in Chain(t, e);
  }

  /** A queue's group is not missing once sched_rt_rq_enqueue has looked at it, and no other group is that was
      not before. */
  lemma {:induction false} EnqueueGroupSound(s: State, q: RtRq)
    requires Tree(s.t) && q in s.t.qs && Sound(s)
    ensures Sound(EnqueueGroup(s, q))
    ensures Missing(EnqueueGroup(s, q))
         == if GoesBack(s, q) then Missing(s) - Members(Chain(s.t, s.t.tgSe[q])) else Missing(s)
    ensures forall e :: e in Own(s.t, q) ==> e !in Missing(EnqueueGroup(s, q))
    ensures q in s.t.tgSe ==> s.t.tgSe[q] in s.t.es && s.t.tgSe[q].myQ == q && SoundBut(s, Chain(s.t, s.t.tgSe[q]))
  {
    if q in s.t.tgSe {
      var se := s.t.tgSe[q];
      FootInChain(s.t, se);
      if GoesBack(s, q) {
        EnqueueSound(s, se, false);
      }
    }
  }

  /** A group that is put back goes to the tail of the list of its priority. */
  lemma EnqueueGroupOrder(s: State, q: RtRq)
    requires Tree(s.t) && q in s.t.qs && Sound(s) && GoesBack(s, q)
    ensures MovedWithin(s, EnqueueGroup(s, q), s.t.tgSe[q], false)
  {
    assert Chain(s.t, s.t.tgSe[q])[0] == s.t.tgSe[q];
    hide Sound;
    hide SoundBut;
    EnqueueOrder(s, s.t.tgSe[q], false, 0);
    hide *;
  }

  /** No group but the one of queue q is queued that must not be, and that one must not. */
  ghost predicate AtWorstLingering(s: State, q: RtRq) {
    q in s.t.qs && !Runnable(s.q[q]) && SoundBut(s, Own(s.t, q))
  }

  /** sched_rt_rq_dequeue takes it off, makes no group missing, and leaves its own queue alone. */
  lemma {:induction false} DequeueGroupSound(s: State, q: RtRq)
    requires Tree(s.t) && AtWorstLingering(s, q)
    ensures Sound(DequeueGroup(s, q)) && Missing(DequeueGroup(s, q)) <= Missing(s)
    ensures q in s.t.tgSe ==> s.t.tgSe[q] in s.t.es && s.t.tgSe[q].myQ == q && SoundBut(s, Chain(s.t, s.t.tgSe[q]))
    ensures DequeueGroup(s, q).q[q] == s.q[q]
  {
    if q in s.t.tgSe {
      var se := s.t.tgSe[q];
      FootInChain(s.t, se);
      if se in s.on {
        DequeueSound(s, se);
        OwnQueueKept(s.t, se);
      } else {
        assert forall e :: e in s.t.es && e in Own(s.t, q) ==> Fits(s, e);
      }
    }
  }

  /** Set the throttle flag; the group leaves unless a boosted member overrides the flag. */
  ghost function Throttle(s: State, q: RtRq): (r: State)
    requires Tree(s.t) && q in s.t.qs
    ensures r.t == s.t
  {
    var u := SetThrottled(s, q, true);
    if s.q[q].nrBoosted == 0 then DequeueGroup(u, q) else u
  }

  lemma FlagSet(s: State, q: RtRq)
    requires Tree(s.t) && Sound(s) && q in s.t.qs
    ensures var u := SetThrottled(s, q, true);
            && Missing(u) <= Missing(s) && SoundBut(u, Own(s.t, q))
            && if s.q[q].nrBoosted == 0 then AtWorstLingering(u, q) else Sound(u)
  {
    var u := SetThrottled(s, q, true);
    FlagsKeep(s, u);
    forall e | e in u.t.es && (e.myQ != q || s.q[q].nrBoosted != 0) ensures Fits(u, e) {
      assert Fits(s, e);
    }
    assert forall e :: e in u.t.es && e.myQ == q ==> e in Own(s.t, q);
  }

  /** Throttling queues no group that must not be, and makes none missing. */
  lemma ThrottleSound(s: State, q: RtRq)
    requires Tree(s.t) && Sound(s) && q in s.t.qs
    ensures s.q[q].nrBoosted == 0 ==> AtWorstLingering(SetThrottled(s, q, true), q)
    ensures Sound(Throttle(s, q)) && Missing(Throttle(s, q)) <= Missing(s)
    ensures Throttle(s, q).q[q] == s.q[q].(throttled := true)
  {
    FlagSet(s, q);
    if s.q[q].nrBoosted == 0 {
      DequeueGroupSound(SetThrottled(s, q, true), q);
    }
  }

  // ---------------------------------------------------------------- clearing flags

  /** The flag of a queue in `d` keeps this non-empty group off. */
  ghost predicate Stopped(s: State, d: set<RtRq>, e: RtEntity)
    requires e in s.t.es
  {
    e.myQ != null && e.myQ in d && s.q[e.myQ].nrRunning != 0 && Held(s.q[e.myQ])
  }

  ghost function StoppedIn(s: State, d: set<RtRq>): set<RtEntity> {
    set e | e in s.t.es && Stopped(s, d, e)
  }

  /** The flags of the queues in `d` are cleared and nothing else is done. */
  ghost function Cleared(s: State, d: set<RtRq>): State {
    s.(q := map x | x in s.q :: if x in d then s.q[x].(throttled := false) else s.q[x])
  }

  /** Then exactly the non-empty groups that these flags kept off are missing, on top of those that were. */
  lemma ClearedMissing(s: State, d: set<RtRq>)
    requires Sound(s)
    ensures Sound(Cleared(s, d)) && Missing(Cleared(s, d)) == Missing(s) + StoppedIn(s, d)
  {
    var r := Cleared(s, d);
    FlagsKeep(s, r);
    forall e | e in r.t.es
      ensures Fits(r, e) && (e in Missing(r) <==> e in Missing(s) || e in StoppedIn(s, d))
    {
      assert Fits(s, e);
    }
  }

  lemma ClearedMore(s: State, d: set<RtRq>, q: RtRq)
    requires q in s.q
    ensures SetThrottled(Cleared(s, d), q, false) == Cleared(s, d + {q})
  {
    assert SetThrottled(Cleared(s, d), q, false).q == Cleared(s, d + {q}).q;
  }

  lemma ClearedNone(s: State)
    ensures Cleared(s, {}) == s
  {
    assert Cleared(s, {}).q == s.q;
  }

  // ---------------------------------------------------------------- priorities and places in a list

  /** The queue of a group is not on the path of its own entity. */
  lemma OwnQueueKept(t: Topo, se: RtEntity)
    requires Tree(t) && se in t.es && se.myQ != null
    ensures !OnPath(Chain(t, se), se.myQ)
  {
    if OnPath(Chain(t, se), se.myQ) {
      OwnerOnPath(t, Chain(t, se), se);
    }
  }

  /** New priorities, with priority inheritance and without. */
  ghost function SetPrio(s: State, e: RtEntity, prio: nat, normal: nat): State
    requires e in s.t.es
  {
    s.(prio := s.prio[e := prio], normal := s.normal[e := normal])
  }

  /** The priorities of a task may change while the task is off. */
  lemma PrioKeeps(s: State, e: RtEntity, prio: nat, normal: nat)
    requires Sound(s) && e in s.t.es && e.myQ == null && e !in s.on
    ensures Sound(SetPrio(s, e, prio, normal)) && Missing(SetPrio(s, e, prio, normal)) == Missing(s)
  {
    var r := SetPrio(s, e, prio, normal);
    forall x | x in s.q ensures Balanced(r.q[x]) {
      assert CountsOk(s, x);
    }
    forall x, p | x in s.q && 0 <= p < MAX_RT_PRIO ensures SameMembers(s.q[x].queue[p], r.q[x].queue[p]) {
      assert ListOk(s, x, p);
    }
    AlikeConsistent(s, r);
    forall x | x in r.t.es ensures Fits(r, x) {
      assert Fits(s, x);
    }
  }

  /** And may not while it is on: the list it sits on is then the wrong one, or the boost count is. */
  lemma PrioBreaks(s: State, e: RtEntity, prio: nat, normal: nat)
    requires Sound(s) && e in s.on && e.myQ == null
    requires prio != s.prio[e] || (prio != normal) != Boosted(s, e)
    ensures !Consistent(SetPrio(s, e, prio, normal))
  {
    var r := SetPrio(s, e, prio, normal);
    if prio != s.prio[e] {
      assert ListOk(s, e.rtRq, Prio(s, e));
      assert e in r.q[e.rtRq].queue[Prio(s, e)];
      assert Prio(r, e) != Prio(s, e);
      assert !ListOk(r, e.rtRq, Prio(s, e));
    } else {
      assert CountsOk(s, e.rtRq);
      assert BoostedOn(r, e.rtRq) - {e} == BoostedOn(s, e.rtRq) - {e};
      OneMore(BoostedOn(s, e.rtRq), BoostedOn(r, e.rtRq), e);
      assert !CountsOk(r, e.rtRq);
    }
  }

  /** requeue_rt_entity: list_move to one end of the same list. */
  ghost function Move(s: State, e: RtEntity, head: bool): (r: State)
    requires e in s.t.es
    ensures r.t == s.t
  {
    if e !in s.on || Prio(s, e) >= MAX_RT_PRIO then s
    else
      var q, p := s.q[e.rtRq], Prio(s, e);
      s.(q := s.q[e.rtRq := q.(queue := q.queue[p := Insert(Remove(q.queue[p], e), e, head)])])
  }

  /** requeue_task_rt. */
  ghost function MoveUp(s: State, c: seq<RtEntity>, head: bool): (r: State)
    requires forall e :: e in c ==> e in s.t.es
    ensures r.t == s.t
    decreases |c|
  {
    if c == [] then s else MoveUp(Move(s, c[0], head), c[1..], head)
  }

  lemma MovedBalanced(q: Q, e: RtEntity, p: nat, head: bool)
    requires Balanced(q) && p < MAX_RT_PRIO && NoDup(q.queue[p]) && e in q.queue[p]
    ensures Balanced(q.(queue := q.queue[p := Insert(Remove(q.queue[p], e), e, head)]))
    ensures SameMembers(q.queue[p], Insert(Remove(q.queue[p], e), e, head))
  {
    RemoveSpec(q.queue[p], e);
    TotalLenUpdate(q.queue, p, Insert(Remove(q.queue[p], e), e, head));
  }

  lemma MoveAlike(s: State, e: RtEntity, head: bool)
    requires Consistent(s) && e in s.on
    ensures Alike(s, Move(s, e, head))
  {
    MovedKeys(s, e, head);
    hide Consistent;
    hide Balanced;
    hide SameMembers;
    hide Move;
    hide Prio;
    hide Boosted;
    forall q, p | q in s.q && 0 <= p < MAX_RT_PRIO
      ensures Balanced(Move(s, e, head).q[q]) && SameMembers(s.q[q].queue[p], Move(s, e, head).q[q].queue[p])
    {
      MovedMembers(s, e, head, q, p);
    }
  }

  lemma MovedKeys(s: State, e: RtEntity, head: bool)
    requires Consistent(s) && e in s.on
    ensures var r := Move(s, e, head);
            && r.t == s.t && r.on == s.on && r.leaf == s.leaf
            && (forall x :: x in s.on ==> Prio(r, x) == Prio(s, x) && Boosted(r, x) == Boosted(s, x))
            && (forall q :: q in s.q ==> r.q[q].nrRunning == s.q[q].nrRunning && r.q[q].nrBoosted == s.q[q].nrBoosted)
  {
    hide Consistent;
    hide Insert;
    hide Remove;
  }

  lemma MovedMembers(s: State, e: RtEntity, head: bool, q: RtRq, p: nat)
    requires Consistent(s) && e in s.on && q in s.q && p < MAX_RT_PRIO
    ensures Balanced(Move(s, e, head).q[q]) && SameMembers(s.q[q].queue[p], Move(s, e, head).q[q].queue[p])
  {
    assert CountsOk(s, q) && ListOk(s, q, p) && ListOk(s, q, Prio(s, e));
    if q == e.rtRq {
      MovedBalanced(s.q[q], e, Prio(s, e), head);
    }
    hide Balanced;
    hide Insert;
    hide Remove;
  }

  /** Moving within a list changes nothing but the order. */
  lemma MoveKeeps(s: State, e: RtEntity, head: bool)
    requires Sound(s) && e in s.t.es
    ensures var r := Move(s, e, head);
            && Sound(r) && Missing(r) == Missing(s) && r.t == s.t && r.on == s.on && r.leaf == s.leaf
            && r.prio == s.prio && r.normal == s.normal
            && forall q :: q in s.q ==> SameNumbers(r.q[q], s.q[q]) && r.q[q].throttled == s.q[q].throttled
  {
    var r := Move(s, e, head);
    if e in s.on {
      MoveAlike(s, e, head);
      AlikeConsistent(s, r);
      forall x | x in r.t.es ensures Fits(r, x) && (x in Missing(r) <==> x in Missing(s)) {
        assert Fits(s, x);
      }
    }
  }

  lemma {:induction false} MoveUpKeeps(s: State, c: seq<RtEntity>, head: bool)
    requires Sound(s) && forall e :: e in c ==> e in s.t.es
    ensures var r := MoveUp(s, c, head);
            && Sound(r) && Missing(r) == Missing(s) && r.on == s.on && r.prio == s.prio && r.normal == s.normal
            && forall q :: q in s.q ==> SameNumbers(r.q[q], s.q[q])
    decreases |c|
  {
    if c != [] {
      MoveKeeps(s, c[0], head);
      MoveUpKeeps(Move(s, c[0], head), c[1..], head);
    }
  }

  lemma MoveMoves(s: State, e: RtEntity, head: bool)
    requires Consistent(s) && e in s.t.es
    ensures forall q :: q in s.q && q != e.rtRq ==> Move(s, e, head).q[q] == s.q[q]
    ensures MovedWithin(s, Move(s, e, head), e, head)
  {
    if e in s.on {
      assert ListOk(s, e.rtRq, Prio(s, e));
      RemoveInsertMoves(s.q[e.rtRq].queue[Prio(s, e)], e, head);
      MovedKeys(s, e, head);
    }
    hide Consistent;
    hide MovedTo;
    hide Insert;
    hide Remove;
  }

  lemma {:induction false} MoveUpElsewhere(s: State, c: seq<RtEntity>, head: bool, q: RtRq)
    requires (forall e :: e in c ==> e in s.t.es) && q in s.q && !OnPath(c, q)
    ensures MoveUp(s, c, head).q[q] == s.q[q]
    decreases |c|
  {
    if c != [] {
      assert c[0] in c;
      MoveUpElsewhere(Move(s, c[0], head), c[1..], head, q);
    }
  }

  lemma SamePlace(s: State, r: State, x: RtEntity)
    requires r.t == s.t && r.on == s.on && r.prio == s.prio && x in s.t.es
    requires forall q :: q in s.q ==> SameNumbers(r.q[q], s.q[q])
    ensures Place(r, x) == Place(s, x)
  {
  }

  lemma MovedSame(s: State, u: State, v: State, r: State, x: RtEntity, head: bool)
    requires s.t == u.t == v.t == r.t && x in s.t.es && Place(s, x) == Place(u, x) && Place(v, x) == Place(r, x)
    requires u.q[x.rtRq] == s.q[x.rtRq] && v.q[x.rtRq] == r.q[x.rtRq] && MovedWithin(u, v, x, head)
    ensures MovedWithin(s, r, x, head)
  {
  }

  /** What one step and the rest of the way up leave alone. */
  lemma MoveUpStep(s: State, c: seq<RtEntity>, head: bool, i: nat)
    requires Sound(s) && IsPath(s.t, c) && i < |c|
    ensures c[0] in s.t.es && c[i] in s.t.es && (forall e :: e in c ==> e in s.t.es)
    ensures var u, r := Move(s, c[0], head), MoveUp(s, c, head);
            && Sound(u) && u.t == s.t && IsPath(s.t, c[1..]) && (forall e :: e in c[1..] ==> e in s.t.es)
            && r == MoveUp(u, c[1..], head)
            && Place(u, c[i]) == Place(s, c[i]) && Place(r, c[i]) == Place(s, c[i])
            && MovedWithin(s, u, c[0], head)
            && (if i == 0 then r.q[c[0].rtRq] == u.q[c[0].rtRq] else u.q[c[i].rtRq] == s.q[c[i].rtRq])
  {
    var u := Move(s, c[0], head);
    TailIsPath(s.t, c);
    MoveKeeps(s, c[0], head);
    MoveUpKeeps(s, c, head);
    MoveMoves(s, c[0], head);
    SamePlace(s, u, c[i]);
    SamePlace(s, MoveUp(s, c, head), c[i]);
    hide Sound;
    hide Move;
    hide MovedWithin;
    hide Missing;
    hide Prio;
    if i == 0 {
      FootAlone(s.t, c);
      MoveUpElsewhere(u, c[1..], head, c[0].rtRq);
    } else {
      Apart(s.t, c, i);
    }
  }

  /** Yielding: each queued member of the path goes to the end asked for of the list it is on, and nothing else
      in its queue changes its place. */
  lemma {:induction false} MoveUpOrder(s: State, c: seq<RtEntity>, head: bool, i: nat)
    requires Sound(s) && IsPath(s.t, c) && i < |c|
    ensures c[i] in s.t.es && (forall e :: e in c ==> e in s.t.es)
    ensures MovedWithin(s, MoveUp(s, c, head), c[i], head)
    decreases |c|
  {
    hide *;
    MoveUpStep(s, c, head, i);
    var u, r := Move(s, c[0], head), MoveUp(s, c, head);
    if i == 0 {
      MovedSame(s, s, u, r, c[i], head);
    } else {
      MoveUpOrder(u, c[1..], head, i - 1);
      MovedSame(s, u, r, r, c[i], head);
    }
  }

  // ---------------------------------------------------------------- growing the tree

  lemma EmptyValid(s: State)
    requires s.t.es == {} && s.leaf == []
    requires forall q :: q in s.q ==> Balanced(s.q[q]) && s.q[q].nrRunning == 0 && s.q[q].nrBoosted == 0
    ensures Valid(s)
  {
    forall q | q in s.q ensures CountsOk(s, q) {
      assert BoostedOn(s, q) == {};
    }
    forall q, p | q in s.q && 0 <= p < MAX_RT_PRIO ensures ListOk(s, q, p) {
      if s.q[q].queue[p] != [] {
        TotalLenPositive(s.q[q].queue, p);
      }
    }
  }

  /** The tree with one more entity `e`, and with the queue it owns if it stands for a group. */
  ghost function Grown(t: Topo, e: RtEntity): Topo
    requires e.rtRq in t.level
  {
    if e.myQ == null then t.(es := t.es + {e})
    else t.(es := t.es + {e}, qs := t.qs + {e.myQ}, tgSe := t.tgSe[e.myQ := e],
            level := t.level[e.myQ := t.level[e.rtRq] + 1], height := t.height + 1)
  }

  /** A new entity: it hangs below an existing queue, and its own queue (if any) is new. */
  ghost predicate IsNew(t: Topo, e: RtEntity) {
    && e !in t.es && e.rtRq in t.qs
    && (if e.rtRq in t.tgSe then e.parent == t.tgSe[e.rtRq] else e.parent == null)
    && (e.myQ != null ==> e.myQ !in t.qs && e.myQ !in t.tgSe)
  }

  lemma GrownTree(t: Topo, e: RtEntity)
    requires Tree(t) && IsNew(t, e)
    ensures e.rtRq in t.level && Tree(Grown(t, e))
  {
    var g := Grown(t, e);
    assert e.myQ != null ==> e.myQ != e.rtRq;
    forall x | x in t.es ensures x.rtRq in t.qs && x.rtRq != e.myQ {
    }
    forall q | q in g.qs ensures q in g.level && g.level[q] <= g.height {
      assert q in t.qs || q == e.myQ;
    }
    forall x | x in g.es ensures x.parent == if x.rtRq in g.tgSe then g.tgSe[x.rtRq] else null {
      if x != e {
        assert x.parent == if x.rtRq in t.tgSe then t.tgSe[x.rtRq] else null;
      }
    }
    forall q | q in g.tgSe
      ensures g.tgSe[q].rtRq in g.level && g.level[q] == g.level[g.tgSe[q].rtRq] + 1
    {
      if q != e.myQ {
        assert t.tgSe[q].rtRq in t.qs;
      }
    }
  }

  /** The snapshot with the new entity: off every list, its own queue empty. */
  ghost predicate Joined(s: State, r: State, e: RtEntity) {
    && e.rtRq in s.t.level && r.t == Grown(s.t, e) && r.on == s.on && r.leaf == s.leaf
    && (forall x :: x in s.t.es ==> r.prio[x] == s.prio[x] && r.normal[x] == s.normal[x])
    && (forall q :: q in s.q ==> r.q[q] == s.q[q])
    && (e.myQ != null ==> Balanced(r.q[e.myQ]) && r.q[e.myQ].nrRunning == 0 && r.q[e.myQ].nrBoosted == 0)
  }

  lemma JoinedKeys(s: State, r: State, e: RtEntity)
    requires Tree(s.t) && IsNew(s.t, e) && Joined(s, r, e)
    ensures forall x :: x in s.t.es ==> Prio(r, x) == Prio(s, x) && Boosted(r, x) == Boosted(s, x)
    ensures forall x :: x in s.t.es ==> Fits(r, x) == Fits(s, x) && (x in Missing(r) <==> x in Missing(s))
  {
    assert forall x :: x in s.t.es && x.myQ != null ==> x.myQ in s.q;
  }

  function EmptyQ(): Q {
    Q(seq(MAX_RT_PRIO + 1, p => p == MAX_RT_PRIO), seq(MAX_RT_PRIO, p => []), 0, MAX_RT_PRIO, 0, false)
  }

  /** That snapshot, when the priorities of a new task are given. */
  ghost function Grow(s: State, e: RtEntity, prio: nat, normal: nat): (r: State)
    requires Tree(s.t) && IsNew(s.t, e)
    ensures e.rtRq in s.t.level && r.t == Grown(s.t, e) && Tree(r.t)
  {
    GrownTree(s.t, e);
    s.(t := Grown(s.t, e), q := if e.myQ == null then s.q else s.q[e.myQ := EmptyQ()],
       prio := s.prio[e := prio], normal := s.normal[e := normal])
  }

  lemma GrowSound(s: State, e: RtEntity, prio: nat, normal: nat)
    requires Sound(s) && Tree(s.t) && IsNew(s.t, e)
    ensures Sound(Grow(s, e, prio, normal)) && Missing(Grow(s, e, prio, normal)) == Missing(s)
  {
    GrowJoined(s, e, prio, normal);
    hide *;
    JoinedSound(s, Grow(s, e, prio, normal), e);
  }

  lemma GrowJoined(s: State, e: RtEntity, prio: nat, normal: nat)
    requires Tree(s.t) && IsNew(s.t, e)
    ensures Joined(s, Grow(s, e, prio, normal), e)
  {
    hide Balanced;
    hide Tree;
    hide EmptyQ;
    hide Wf;
    hide Grown;
    hide IsNew;
    EmptyBalanced();
    NewKeys(s, e);
  }

  lemma NewKeys(s: State, e: RtEntity)
    requires Tree(s.t) && IsNew(s.t, e)
    ensures e !in s.t.es && s.prio.Keys == s.normal.Keys == s.t.es
    ensures s.q.Keys == s.t.qs && (e.myQ != null ==> e.myQ !in s.q)
  {
  }

  lemma EmptyBalanced()
    ensures Balanced(EmptyQ()) && EmptyQ().nrRunning == 0 && EmptyQ().nrBoosted == 0
  {
    TotalLenZero(EmptyQ().queue);
  }

  /** Creating a task or a group neither queues a group that must not be nor makes one missing. */
  lemma JoinedSound(s: State, r: State, e: RtEntity)
    requires Sound(s) && Tree(s.t) && IsNew(s.t, e) && Joined(s, r, e)
    ensures Sound(r) && Missing(r) == Missing(s)
  {
    JoinedKeys(s, r, e);
    JoinedConsistent(s, r, e);
    hide Consistent;
    hide Tree;
    hide Runnable;
    forall x | x in r.t.es ensures Fits(r, x) {
      assert x == e || Fits(s, x);
    }
  }

  lemma JoinedConsistent(s: State, r: State, e: RtEntity)
    requires Sound(s) && Tree(s.t) && IsNew(s.t, e) && Joined(s, r, e)
    ensures Consistent(r)
  {
    JoinedKeys(s, r, e);
    JoinedLeaf(s, r, e);
    hide LeafOk;
    hide ListOk;
    hide CountsOk;
    hide Tree;
    forall q, p | q in r.q && 0 <= p < MAX_RT_PRIO ensures ListOk(r, q, p) {
      JoinedList(s, r, e, q, p);
    }
    forall q | q in r.q ensures CountsOk(r, q) {
      JoinedCounts(s, r, e, q);
    }
    forall x | x in r.on ensures Prio(r, x) < MAX_RT_PRIO {
      assert Prio(s, x) < MAX_RT_PRIO;
    }
  }

  lemma JoinedList(s: State, r: State, e: RtEntity, q: RtRq, p: nat)
    requires Sound(s) && IsNew(s.t, e) && Joined(s, r, e) && q in r.q && p < MAX_RT_PRIO
    requires forall x :: x in s.t.es ==> Prio(r, x) == Prio(s, x)
    ensures ListOk(r, q, p)
  {
    if q in s.q {
      assert ListOk(s, q, p);
    } else {
      assert q == e.myQ;
      if r.q[q].queue[p] != [] {
        TotalLenPositive(r.q[q].queue, p);
      }
      assert forall x :: x in s.on ==> x.rtRq in s.q;
    }
  }

  lemma JoinedCounts(s: State, r: State, e: RtEntity, q: RtRq)
    requires Sound(s) && IsNew(s.t, e) && Joined(s, r, e) && q in r.q
    requires forall x :: x in s.t.es ==> Boosted(r, x) == Boosted(s, x)
    ensures CountsOk(r, q)
  {
    if q in s.q {
      assert CountsOk(s, q);
      assert BoostedOn(r, q) == BoostedOn(s, q);
    } else {
      assert q == e.myQ;
      assert forall x :: x in s.on ==> x.rtRq in s.q;
      assert BoostedOn(r, q) == {};
    }
  }

  lemma JoinedLeaf(s: State, r: State, e: RtEntity)
    requires Sound(s) && IsNew(s.t, e) && Joined(s, r, e)
    ensures LeafOk(r)
  {
    forall q: RtRq | q in r.q && r.q[q].nrRunning != 0 ensures q in r.leaf {
      assert q in r.t.qs;
    }
  }
}
