/** What the run-queue operations of rt.c compute, as functions on a snapshot of the run queue,
    and what every operation keeps.

    A group entity sits in its parent's array at the best priority of its own queue.  Any change
    below can therefore move it, so an operation first takes the entity and all its ancestors off,
    top-down, and then puts back, bottom-up, those that still belong.  In between the array of an
    ancestor never contains an entity whose key is about to change.
  */
module RtState {
  import opened Kernel
  import opened RtTypes
  import opened Lists

  // ---------------------------------------------------------------- the group tree

  datatype Topo = Topo(
    root: RtRq?,
    qs: set<RtRq>,               // every group's queue on this CPU
    es: set<RtEntity>,           // every task and every group entity
    tgSe: map<RtRq, RtEntity>,   // rt_rq->tg->rt_se[cpu]; the root queue has none
    level: map<RtRq, nat>,
    height: nat)

  /** Who belongs where.  The triggers keep the solver from walking up the tree on its own. */
  ghost predicate Linkage(t: Topo) {
    && t.root !in t.tgSe
    && (forall q {:trigger t.tgSe[q]} :: q in t.tgSe ==>
          q in t.qs && t.tgSe[q] in t.es && t.tgSe[q].myQ == q)
    && (forall e {:trigger e.rtRq} :: e in t.es ==> e.rtRq in t.qs)
    && (forall e {:trigger e.parent} :: e in t.es ==>
          e.parent == if e.rtRq in t.tgSe then t.tgSe[e.rtRq] else null)
    && (forall e {:trigger e.myQ} :: e in t.es && e.myQ != null ==>
          e.myQ in t.qs && e.myQ in t.tgSe && t.tgSe[e.myQ] == e && e.myQ != e.rtRq)
  }

  /** The groups form a tree of finite height. */
  ghost predicate Tree(t: Topo) {
    && Linkage(t) && t.root in t.qs
    && (forall q {:trigger q in t.qs} :: q in t.qs ==> q in t.level && t.level[q] <= t.height)
    && (forall q {:trigger q in t.tgSe} :: q in t.qs && q != t.root ==> q in t.tgSe)
    && (forall q {:trigger t.tgSe[q]} :: q in t.tgSe ==>
          q in t.level && t.tgSe[q].rtRq in t.level && t.level[q] == t.level[t.tgSe[q].rtRq] + 1)
  }

  function Above(c: seq<RtEntity>, i: nat): RtEntity? {
    if i + 1 < |c| then c[i + 1] else null
  }

  /** An entity, its parent, and so on up to an entity of the root queue. */
  ghost predicate IsPath(t: Topo, c: seq<RtEntity>) {
    && (forall i :: 0 <= i < |c| ==> c[i] in t.es)
    && (forall i :: 0 <= i < |c| ==> c[i].parent == Above(c, i))
    && NoDup(c)
  }

  /** for_each_sched_rt_entity: the entity and its ancestors, nearest first. */
  ghost function Chain(t: Topo, e: RtEntity): (c: seq<RtEntity>)
    requires Tree(t) && e in t.es
    ensures IsPath(t, c) && |c| > 0 && c[0] == e
    decreases Depth(t, e)
  {
    assert e.rtRq in t.qs;
    if e.parent == null then [e]
    else
      assert Depth(t, e) == Depth(t, e.parent) + 1;
      var c := Chain(t, e.parent);
      assert e !in c by {
        DepthsAbove(t, c);
        assert forall i :: 0 <= i < |c| ==> Depth(t, c[i]) != Depth(t, e);
      }
      [e] + c
  }

  ghost function Depth(t: Topo, e: RtEntity): nat
    requires Tree(t) && e in t.es
  {
    assert e.rtRq in t.qs;
    t.level[e.rtRq]
  }

  lemma {:induction false} DepthsAbove(t: Topo, c: seq<RtEntity>)
    requires Tree(t) && IsPath(t, c) && c != []
    ensures forall i :: 0 <= i < |c| ==> Depth(t, c[i]) <= Depth(t, c[0])
  {
    if |c| > 1 {
      var d := c[1..];
      forall i | 0 <= i < |d| ensures d[i].parent == Above(d, i) {
        assert d[i] == c[i + 1];
      }
      DepthsAbove(t, d);
      assert c[0].parent == Above(c, 0) == d[0];
      assert Depth(t, c[0]) == Depth(t, d[0]) + 1;
      forall i | 0 < i < |c| ensures Depth(t, c[i]) <= Depth(t, c[0]) {
        assert c[i] == d[i - 1];
      }
    }
  }

  // ---------------------------------------------------------------- one priority array

  datatype Q = Q(bitmap: seq<bool>, queue: seq<seq<RtEntity>>, nrRunning: int, highestPrio: nat,
                 nrBoosted: int, throttled: bool)

  /** MAX_RT_PRIO lists and one bit more, the last one a delimiter that is always set. */
  ghost predicate Sized(q: Q) {
    && |q.queue| == MAX_RT_PRIO && |q.bitmap| == MAX_RT_PRIO + 1 && q.bitmap[MAX_RT_PRIO]
    && q.highestPrio <= MAX_RT_PRIO
  }

  /** Bitmap, length and cached best priority agree with the lists. */
  ghost predicate Balanced(q: Q) {
    && Sized(q)
    && (forall p :: 0 <= p < MAX_RT_PRIO ==> (q.bitmap[p] <==> q.queue[p] != []))
    && q.nrRunning == TotalLen(q.queue)
    && IsBest(q.queue, q.highestPrio)
  }

  /** Link an entity at priority p: the tail of __enqueue_rt_entity, with inc_rt_tasks. */
  ghost function Linked(q: Q, e: RtEntity, p: nat, boosted: bool, head: bool): (r: Q)
    requires Sized(q) && p < MAX_RT_PRIO
    ensures Sized(r)
  {
    Q(q.bitmap[p := true],
      q.queue[p := Insert(q.queue[p], e, head)],
      q.nrRunning + 1,
      if p < q.highestPrio then p else q.highestPrio,
      q.nrBoosted + (if boosted then 1 else 0),
      q.throttled)
  }

  /** Unlink an entity at priority p: __dequeue_rt_entity, with dec_rt_tasks. */
  ghost function Unlinked(q: Q, e: RtEntity, p: nat, boosted: bool): (r: Q)
    requires Sized(q) && p < MAX_RT_PRIO
    ensures Sized(r)
  {
    var l := Remove(q.queue[p], e);
    var bits := if l == [] then q.bitmap[p := false] else q.bitmap;
    Q(bits,
      q.queue[p := l],
      q.nrRunning - 1,
      if q.nrRunning - 1 == 0 then MAX_RT_PRIO
      else if p == q.highestPrio then FirstBit(bits, 0)
      else q.highestPrio,
      q.nrBoosted - (if boosted then 1 else 0),
      q.throttled)
  }

  lemma LinkedBalanced(q: Q, e: RtEntity, p: nat, boosted: bool, head: bool)
    requires Balanced(q) && p < MAX_RT_PRIO
    ensures Balanced(Linked(q, e, p, boosted, head))
  {
    TotalLenUpdate(q.queue, p, Insert(q.queue[p], e, head));
  }

  /** dec_rt_prio finds the new best priority in the bitmap. */
  lemma UnlinkedBalanced(q: Q, e: RtEntity, p: nat, boosted: bool)
    requires Balanced(q) && p < MAX_RT_PRIO && NoDup(q.queue[p]) && e in q.queue[p]
    ensures Balanced(Unlinked(q, e, p, boosted))
  {
    var r := Unlinked(q, e, p, boosted);
    RemoveSpec(q.queue[p], e);
    TotalLenUpdate(q.queue, p, r.queue[p]);
    if r.nrRunning == 0 {
      forall i | 0 <= i < MAX_RT_PRIO ensures r.queue[i] == [] {
        if r.queue[i] != [] {
          TotalLenPositive(r.queue, i);
        }
      }
    } else if forall i :: 0 <= i < MAX_RT_PRIO ==> r.queue[i] == [] {
      TotalLenZero(r.queue);
    }
  }

  /** rt_rq_throttled: a boosted member overrides the flag. */
  ghost predicate Held(q: Q) {
    q.throttled && q.nrBoosted == 0
  }

  ghost predicate Runnable(q: Q) {
    q.nrRunning != 0 && !Held(q)
  }

  // ---------------------------------------------------------------- snapshots

  datatype RawState = State(
    t: Topo,
    q: map<RtRq, Q>,
    on: set<RtEntity>,             // the linked entities
    prio: map<RtEntity, nat>,
    normal: map<RtEntity, nat>,
    leaf: seq<RtRq>)

  ghost predicate Wf(s: RawState) {
    && Linkage(s.t) && s.q.Keys == s.t.qs && s.prio.Keys == s.t.es && s.normal.Keys == s.t.es
    && s.on <= s.t.es
    && (forall q {:trigger s.q[q]} :: q in s.q ==> Sized(s.q[q]))
  }

  /** Snapshots whose maps cover the tree. */
  type State = s: RawState | Wf(s)
    ghost witness RawState.State(Topo(null, {}, {}, map[], map[], 0), map[], {}, map[], map[], [])

  /** rt_se_prio. */
  ghost function Prio(s: State, e: RtEntity): nat
    requires e in s.t.es
  {
    if e.myQ != null then s.q[e.myQ].highestPrio else s.prio[e]
  }

  /** rt_se_boosted. */
  ghost predicate Boosted(s: State, e: RtEntity)
    requires e in s.t.es
  {
    if e.myQ != null then s.q[e.myQ].nrBoosted != 0 else s.prio[e] != s.normal[e]
  }

  // ---------------------------------------------------------------- the invariant

  /** The queued boosted entities of a queue. */
  ghost function BoostedOn(s: State, q: RtRq): set<RtEntity>
  {
    set e | e in s.on && e.rtRq == q && Boosted(s, e)
  }

  /** List `p` of queue `q` holds, once each, exactly the linked entities of q with priority p. */
  ghost predicate ListOk(s: State, q: RtRq, p: nat)
    requires q in s.q && p < MAX_RT_PRIO
  {
    && NoDup(s.q[q].queue[p])
    && (forall e :: e in s.q[q].queue[p] ==> e in s.on && e.rtRq == q && Prio(s, e) == p)
    && (forall e :: e in s.on && e.rtRq == q && Prio(s, e) == p ==> e in s.q[q].queue[p])
  }

  /** The cached numbers of a queue are right. */
  ghost predicate CountsOk(s: State, q: RtRq)
    requires q in s.q
  {
    Balanced(s.q[q]) && s.q[q].nrBoosted == |BoostedOn(s, q)|
  }

  /** The leaf list is exactly the non-empty queues. */
  ghost predicate LeafOk(s: State)
  {
    && NoDup(s.leaf)
    && (forall q: RtRq :: q in s.leaf ==> q in s.q && s.q[q].nrRunning != 0)
    && (forall q :: q in s.q && s.q[q].nrRunning != 0 ==> q in s.leaf)
  }

  /** Everything but the question which groups are queued. */
  ghost predicate Consistent(s: State) {
    && (forall e {:trigger Prio(s, e)} :: e in s.on ==> Prio(s, e) < MAX_RT_PRIO)
    && (forall q, p {:trigger ListOk(s, q, p)} :: q in s.q && 0 <= p < MAX_RT_PRIO ==> ListOk(s, q, p))
    && (forall q {:trigger CountsOk(s, q)} :: q in s.q ==> CountsOk(s, q))
    && LeafOk(s)
  }

  /** A group is queued iff its queue is non-empty and not effectively throttled. */
  ghost predicate GroupOk(s: State, e: RtEntity)
    requires e in s.t.es
  {
    e.myQ != null ==> (e in s.on <==> Runnable(s.q[e.myQ]))
  }

  ghost predicate Valid(s: State) {
    Consistent(s) && forall e {:trigger GroupOk(s, e)} :: e in s.t.es ==> GroupOk(s, e)
  }

  /** One half of that: what is queued may run. */
  ghost predicate Fits(s: State, e: RtEntity)
    requires e in s.t.es
  {
    e.myQ != null && e in s.on ==> Runnable(s.q[e.myQ])
  }

  /** No group outside `off` is queued that must not be. */
  ghost predicate SoundBut(s: State, off: seq<RtEntity>) {
    Consistent(s) && forall e {:trigger Fits(s, e)} :: e in s.t.es && e !in off ==> Fits(s, e)
  }

  ghost predicate Sound(s: State) {
    SoundBut(s, [])
  }

  /** The groups that could run and are not queued: what a sound state lacks to be valid. */
  ghost function Missing(s: State): set<RtEntity> {
    set e | e in s.t.es && e.myQ != null && e !in s.on && Runnable(s.q[e.myQ])
  }

  lemma SoundIsValid(s: State)
    ensures Valid(s) <==> Sound(s) && Missing(s) == {}
  {
    if Sound(s) && Missing(s) == {} {
      forall e | e in s.t.es ensures GroupOk(s, e) {
        assert Fits(s, e) && e !in Missing(s);
      }
    }
    if Valid(s) {
      forall e | e in s.t.es ensures Fits(s, e) && e !in Missing(s) {
        assert GroupOk(s, e);
      }
    }
  }

  /** Snapshots between two operations. */
  type SoundState = s: State | Sound(s)
    ghost witness RawState.State(Topo(null, {}, {}, map[], map[], 0), map[], {}, map[], map[], [])

  // ---------------------------------------------------------------- one entity on or off

  /** The tail of __enqueue_rt_entity. */
  ghost function Link(s: State, e: RtEntity, head: bool): (r: State)
    requires e in s.t.es && Prio(s, e) < MAX_RT_PRIO
  {
    var q := s.q[e.rtRq];
    s.(q := s.q[e.rtRq := Linked(q, e, Prio(s, e), Boosted(s, e), head)],
       on := s.on + {e},
       leaf := if q.nrRunning == 0 then [e.rtRq] + s.leaf else s.leaf)
  }

  /** __dequeue_rt_entity. */
  ghost function Unlink(s: State, e: RtEntity): (r: State)
    requires e in s.t.es && Prio(s, e) < MAX_RT_PRIO
  {
    var q := s.q[e.rtRq];
    s.(q := s.q[e.rtRq := Unlinked(q, e, Prio(s, e), Boosted(s, e))],
       on := s.on - {e},
       leaf := if q.nrRunning - 1 == 0 then Remove(s.leaf, e.rtRq) else s.leaf)
  }

  /** The entity that stands for the queue e belongs to is off its list. */
  ghost predicate ParentOff(s: State, e: RtEntity) {
    e.parent != null ==> e.parent !in s.on
  }

  /** While the entity standing for e's queue is off, no linked entity can see a change of that queue. */
  lemma SameKeys(s: State, r: State, e: RtEntity)
    requires r.t == s.t && r.prio == s.prio && r.normal == s.normal && e in s.t.es
    requires forall q :: q in s.q && q != e.rtRq ==> r.q[q] == s.q[q]
    ensures forall x :: x in s.t.es && x != e.parent ==>
              Prio(r, x) == Prio(s, x) && Boosted(r, x) == Boosted(s, x)
  {
    assert e.parent == e.parent;
    forall x | x in s.t.es && x != e.parent
      ensures Prio(r, x) == Prio(s, x) && Boosted(r, x) == Boosted(s, x)
    {
      assert x.myQ != e.rtRq;
    }
  }

  /** Only `e` went on or off, and the entity that stands for its queue is off. */
  ghost predicate Moved(s: State, r: State, e: RtEntity) {
    && r.t == s.t && r.prio == s.prio && r.normal == s.normal
    && e in s.t.es && ParentOff(s, e)
    && (forall q :: q in s.q && q != e.rtRq ==> r.q[q] == s.q[q])
    && if e in s.on then r.on == s.on - {e} else r.on == s.on + {e}
  }

  lemma BoostedMembers(s: State, r: State, e: RtEntity, q: RtRq)
    requires Moved(s, r, e)
    ensures BoostedOn(r, q) - {e} == BoostedOn(s, q) - {e}
    ensures e in BoostedOn(r, q) <==> q == e.rtRq && Boosted(s, e) && e in r.on
  {
    SameKeys(s, r, e);
    assert e.parent != e;
  }

  /** How the number of boosted members changes. */
  lemma BoostedAfter(s: State, r: State, e: RtEntity, q: RtRq)
    requires Moved(s, r, e)
    ensures |BoostedOn(r, q)| == |BoostedOn(s, q)| + if q != e.rtRq || !Boosted(s, e) then 0
                                                     else if e in r.on then 1 else -1
  {
    BoostedMembers(s, r, e, q);
    var b, b' := BoostedOn(s, q), BoostedOn(r, q);
    assert e in b <==> q == e.rtRq && Boosted(s, e) && e in s.on;
    OneMore(b, b', e);
  }

  lemma OneMore<T>(b: set<T>, b': set<T>, e: T)
    requires b' - {e} == b - {e}
    ensures e in b' && e !in b ==> |b'| == |b| + 1
    ensures e in b && e !in b' ==> |b'| == |b| - 1
    ensures (e in b <==> e in b') ==> |b'| == |b|
  {
    assert b == (if e in b then (b - {e}) + {e} else b - {e});
    assert b' == (if e in b' then (b' - {e}) + {e} else b' - {e});
  }

  lemma LinkList(s: State, e: RtEntity, head: bool, q: RtRq, p: nat)
    requires Consistent(s) && e in s.t.es && e !in s.on && ParentOff(s, e) && Prio(s, e) < MAX_RT_PRIO
    requires q in s.q && p < MAX_RT_PRIO
    ensures ListOk(Link(s, e, head), q, p)
  {
    SameKeys(s, Link(s, e, head), e);
    assert ListOk(s, q, p);
  }

  lemma LinkCounts(s: State, e: RtEntity, head: bool, q: RtRq)
    requires Consistent(s) && e in s.t.es && e !in s.on && ParentOff(s, e) && Prio(s, e) < MAX_RT_PRIO
    requires q in s.q
    ensures CountsOk(Link(s, e, head), q)
  {
    var r := Link(s, e, head);
    BoostedAfter(s, r, e, q);
    assert CountsOk(s, q);
    if q == e.rtRq {
      LinkedBalanced(s.q[q], e, Prio(s, e), Boosted(s, e), head);
    }
  }

  lemma LinkKeeps(s: State, e: RtEntity, head: bool)
    requires Consistent(s) && e in s.t.es && e !in s.on && ParentOff(s, e) && Prio(s, e) < MAX_RT_PRIO
    ensures Consistent(Link(s, e, head))
  {
    var r := Link(s, e, head);
    forall q, p | q in r.q && 0 <= p < MAX_RT_PRIO ensures ListOk(r, q, p) {
      LinkList(s, e, head, q, p);
    }
    forall q | q in r.q ensures CountsOk(r, q) {
      LinkCounts(s, e, head, q);
    }
    SameKeys(s, r, e);
    assert CountsOk(s, e.rtRq);
  }

  lemma UnlinkList(s: State, e: RtEntity, q: RtRq, p: nat)
    requires Consistent(s) && e in s.on && ParentOff(s, e)
    requires q in s.q && p < MAX_RT_PRIO
    ensures ListOk(Unlink(s, e), q, p)
  {
    var r := Unlink(s, e);
    SameKeys(s, r, e);
    assert ListOk(s, q, p);
    var l, l' := s.q[q].queue[p], r.q[q].queue[p];
    if q == e.rtRq && p == Prio(s, e) {
      RemoveSpec(l, e);
      assert l' == Remove(l, e);
    } else {
      assert l' == l;
      assert e !in l;
    }
    assert NoDup(l');
    forall x | x in l' ensures x in r.on && x.rtRq == q && Prio(r, x) == p {
      assert x in l && x != e;
      assert x in s.on && x != e.parent;
    }
    forall x | x in r.on && x.rtRq == q && Prio(r, x) == p ensures x in l' {
      assert x in s.on && x != e.parent;
      assert x in l;
    }
  }

  lemma UnlinkCounts(s: State, e: RtEntity, q: RtRq)
    requires Consistent(s) && e in s.on && ParentOff(s, e)
    requires q in s.q
    ensures CountsOk(Unlink(s, e), q)
  {
    var r := Unlink(s, e);
    BoostedAfter(s, r, e, q);
    assert CountsOk(s, q);
    if q == e.rtRq {
      assert ListOk(s, q, Prio(s, e));
      UnlinkedBalanced(s.q[q], e, Prio(s, e), Boosted(s, e));
    }
  }

  lemma OnLeaf(s: State, e: RtEntity)
    requires Consistent(s) && e in s.on
    ensures s.q[e.rtRq].nrRunning > 0 && e.rtRq in s.leaf
  {
    assert CountsOk(s, e.rtRq) && ListOk(s, e.rtRq, Prio(s, e));
    TotalLenPositive(s.q[e.rtRq].queue, Prio(s, e));
  }

  lemma UnlinkLeaf(s: State, e: RtEntity)
    requires Consistent(s) && e in s.on
    ensures LeafOk(Unlink(s, e))
  {
    OnLeaf(s, e);
    RemoveSpec(s.leaf, e.rtRq);
    var r := Unlink(s, e);
    var l := Remove(s.leaf, e.rtRq);
    assert r.leaf == l || r.leaf == s.leaf;
    forall q: RtRq | q in l ensures q in s.leaf {}
    forall q: RtRq | q in r.leaf ensures q in r.q && r.q[q].nrRunning != 0 {
      assert q in s.leaf;
    }
    forall q: RtRq | q in r.q && r.q[q].nrRunning != 0 ensures q in r.leaf {
      assert q in s.leaf;
    }
  }

  lemma UnlinkKeeps(s: State, e: RtEntity)
    requires Consistent(s) && e in s.on && ParentOff(s, e)
    ensures Consistent(Unlink(s, e))
  {
    var r := Unlink(s, e);
    forall q, p | q in r.q && 0 <= p < MAX_RT_PRIO ensures ListOk(r, q, p) {
      UnlinkList(s, e, q, p);
    }
    forall q | q in r.q ensures CountsOk(r, q) {
      UnlinkCounts(s, e, q);
    }
    SameKeys(s, r, e);
    UnlinkLeaf(s, e);
  }
}
