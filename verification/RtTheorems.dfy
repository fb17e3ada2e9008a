/** What the operations on the run queue add up to: the exact order of every list they touch, that
    the counters are determined by the queued tasks alone, and that the descending pick is optimal. */
module RtTheorems {
  import opened Kernel
  import opened RtTypes
  import opened Lists
  import opened RtState
  import opened RtOps

  lemma SuffixIsPath(t: Topo, c: seq<RtEntity>, k: nat)
    requires IsPath(t, c) && k <= |c|
    ensures IsPath(t, c[k..])
    ensures forall e :: e in c[k..] ==> e in t.es
  {
    var d := c[k..];
    forall i | 0 <= i < |d| ensures d[i].parent == Above(d, i) {
      assert d[i] == c[i + k];
    }
  }

  /** dequeue_rt_stack when the members from index k up have been taken off. */
  ghost function OffFrom(s: State, c: seq<RtEntity>, k: nat): State
    requires k <= |c| && (forall e :: e in c ==> e in s.t.es)
  {
    Off(s, c[k..])
  }

  lemma OffStep(s: State, c: seq<RtEntity>, k: nat)
    requires Consistent(s) && IsPath(s.t, c) && k < |c|
    ensures c[k] in s.t.es && (forall e :: e in c ==> e in s.t.es)
    ensures var u := OffFrom(s, c, k + 1);
            && u.t == s.t && (c[k] in u.on ==> Prio(u, c[k]) < MAX_RT_PRIO)
            && OffFrom(s, c, k) == OffOne(u, c[k])
    ensures OffFrom(s, c, 0) == Off(s, c)
  {
    SuffixIsPath(s.t, c, k + 1);
    OffKeeps(s, c[k + 1..]);
    assert c[k..][1..] == c[k + 1..] && c[k..][0] == c[k];
    assert c[0..] == c;
  }

  /** A non-empty group has a real priority. */
  lemma GroupPrio(s: State, e: RtEntity)
    requires Consistent(s) && e in s.t.es && e.myQ != null && s.q[e.myQ].nrRunning != 0
    ensures Prio(s, e) < MAX_RT_PRIO
  {
    assert CountsOk(s, e.myQ);
    if Prio(s, e) == MAX_RT_PRIO {
      TotalLenZero(s.q[e.myQ].queue);
    }
  }

  /** A path that is off and may be put back. */
  ghost predicate Pending(s: State, c: seq<RtEntity>) {
    && Consistent(s) && IsPath(s.t, c)
    && forall e :: e in c ==> e !in s.on && (e.myQ == null ==> s.prio[e] < MAX_RT_PRIO)
  }

  /** The head of a path, null when it is empty. */
  function First(c: seq<RtEntity>): RtEntity? {
    if c == [] then null else c[0]
  }

  lemma PendingStep(s: State, u: State, c: seq<RtEntity>)
    requires Pending(s, c) && c != [] && Consistent(u) && SameBut(s, u, [c[0]])
    ensures Pending(u, c[1..]) && c[0].parent == First(c[1..])
  {
    TailIsPath(s.t, c);
    assert c[0].parent == Above(c, 0);
    forall e | e in c[1..] ensures e !in u.on && (e.myQ == null ==> u.prio[e] < MAX_RT_PRIO) {
      assert e !in [c[0]];
    }
  }

  lemma {:induction false} EnqueueStep(s: State, c: seq<RtEntity>, head: bool)
    requires Pending(s, c) && c != []
    ensures var u := EnqueueOne(s, c[0], head);
            Pending(u, c[1..]) && c[0].parent == First(c[1..]) && u.t == s.t
            && EnqueueUp(s, c, head) == EnqueueUp(u, c[1..], head)
    ensures (c[0].myQ == null || Runnable(s.q[c[0].myQ])) ==> Prio(s, c[0]) < MAX_RT_PRIO
  {
    assert c[0].parent == Above(c, 0);
    EnqueueOneKeeps(s, c[0], head);
    PendingStep(s, EnqueueOne(s, c[0], head), c);
    if c[0].myQ != null && Runnable(s.q[c[0].myQ]) {
      GroupPrio(s, c[0]);
    }
  }

  lemma {:induction false} RequeueStep(s: State, c: seq<RtEntity>)
    requires Pending(s, c) && c != []
    ensures var again := c[0].myQ != null && s.q[c[0].myQ].nrRunning != 0;
            var u := if again then EnqueueOne(s, c[0], false) else s;
            Pending(u, c[1..]) && c[0].parent == First(c[1..]) && u.t == s.t
            && RequeueUp(s, c) == RequeueUp(u, c[1..])
            && (again ==> Prio(s, c[0]) < MAX_RT_PRIO)
  {
    if c[0].myQ != null && s.q[c[0].myQ].nrRunning != 0 {
      EnqueueStep(s, c, false);
      GroupPrio(s, c[0]);
    } else {
      SameButSelf(s, [c[0]]);
      PendingStep(s, s, c);
    }
  }

  /** dequeue_rt_stack leaves a path that may be put back. */
  lemma OffPending(s: State, c: seq<RtEntity>)
    requires Consistent(s) && IsPath(s.t, c) && c != []
    requires c[0].myQ == null ==> s.prio[c[0]] < MAX_RT_PRIO
    ensures Pending(Off(s, c), c)
  {
    OffKeeps(s, c);
    GroupsAbove(s.t, c);
  }

  lemma AllApart(t: Topo, c: seq<RtEntity>, i: nat, j: nat)
    requires Linkage(t) && IsPath(t, c) && i < j < |c|
    ensures c[i].rtRq != c[j].rtRq
  {
    assert c[i].parent == Above(c, i) && c[j].parent == Above(c, j);
  }

  // ---------------------------------------------------------------- list order

  /** The lists of e's queue without e. */
  ghost function Without(s: State, e: RtEntity): (l: seq<seq<RtEntity>>)
    requires e in s.t.es
    ensures |l| == MAX_RT_PRIO
  {
    var l := s.q[e.rtRq].queue;
    if e in s.on && Prio(s, e) < MAX_RT_PRIO then l[Prio(s, e) := Remove(l[Prio(s, e)], e)] else l
  }

  /** The lists `l` with `e` put at one end of the list of the priority it has in `r`. */
  ghost function With(r: State, l: seq<seq<RtEntity>>, e: RtEntity, head: bool): seq<seq<RtEntity>>
    requires e in r.t.es && |l| == MAX_RT_PRIO
  {
    if e in r.on && Prio(r, e) < MAX_RT_PRIO then l[Prio(r, e) := Insert(l[Prio(r, e)], e, head)] else l
  }

  /** The list x is on, MAX_RT_PRIO when it is off. */
  ghost function Place(s: State, x: RtEntity): nat
    requires x in s.t.es
  {
    if x in s.on then Prio(s, x) else MAX_RT_PRIO
  }

  /** From s to r the lists of x's queue differ in the place of x only: x has left its list for one end of its
      new one, and all others are where they were. */
  ghost predicate MovedWithin(s: State, r: State, x: RtEntity, head: bool)
    requires r.t == s.t && x in s.t.es
  {
    var a, b, from, to := s.q[x.rtRq].queue, r.q[x.rtRq].queue, Place(s, x), Place(r, x);
    && (forall p :: 0 <= p < MAX_RT_PRIO && p != from && p != to ==> b[p] == a[p])
    && (from == to < MAX_RT_PRIO ==> MovedTo(a[to], b[to], x, head))
    && (to != from < MAX_RT_PRIO ==> TakenFrom(a[from], b[from], x))
    && (from != to < MAX_RT_PRIO ==> AddedTo(a[to], b[to], x, head))
  }

  /** Off its list, and later on one again. */
  lemma MovedTwice(s: State, u: State, r: State, x: RtEntity, tail: bool, head: bool)
    requires s.t == u.t == r.t && x in s.t.es && Place(u, x) == MAX_RT_PRIO
    requires MovedWithin(s, u, x, tail) && MovedWithin(u, r, x, head)
    ensures MovedWithin(s, r, x, head)
  {
    hide Place;
    var a, m, b, from, to := s.q[x.rtRq].queue, u.q[x.rtRq].queue, r.q[x.rtRq].queue, Place(s, x), Place(r, x);
    if from == to < MAX_RT_PRIO {
      TakenAdded(a[to], m[to], b[to], x, head);
    }
    hide TakenFrom;
    hide AddedTo;
    hide MovedTo;
  }

  lemma WithMoves(s: State, r: State, x: RtEntity, head: bool)
    requires Consistent(s) && r.t == s.t && x in s.t.es
    requires r.q[x.rtRq].queue == With(r, Without(s, x), x, head)
    ensures MovedWithin(s, r, x, head)
  {
    var a, from, to := s.q[x.rtRq].queue, Place(s, x), Place(r, x);
    if from < MAX_RT_PRIO {
      assert ListOk(s, x.rtRq, from);
      RemoveTakes(a[from], x);
      RemoveInsertMoves(a[from], x, head);
    }
    if to < MAX_RT_PRIO {
      InsertAdds(a[to], x, head);
    }
    hide Consistent;
    hide Insert;
    hide Remove;
  }

  lemma Apart(t: Topo, c: seq<RtEntity>, i: nat)
    requires Linkage(t) && IsPath(t, c) && 0 < i < |c|
    ensures c[i].rtRq != c[0].rtRq && c[1..][i - 1] == c[i]
  {
    FootAlone(t, c);
    assert c[1..][i - 1] == c[i];
  }

  /** One step touches the lists of one queue. */
  lemma StepLists(s: State, e: RtEntity, head: bool)
    requires Consistent(s) && e in s.t.es
    ensures Prio(s, e) < MAX_RT_PRIO ==>
              Unlink(s, e).q[e.rtRq].queue ==
                s.q[e.rtRq].queue[Prio(s, e) := Remove(s.q[e.rtRq].queue[Prio(s, e)], e)]
    ensures var r := EnqueueOne(s, e, head);
            e !in s.on && e.myQ != e.rtRq ==> r.q[e.rtRq].queue == With(r, s.q[e.rtRq].queue, e, head)
  {
  }

  lemma {:induction false} OffFoot(s: State, c: seq<RtEntity>)
    requires Consistent(s) && IsPath(s.t, c) && c != []
    ensures Off(s, c).q[c[0].rtRq].queue == Without(s, c[0])
  {
    TailIsPath(s.t, c);
    var u := Off(s, c[1..]);
    OffKeeps(s, c[1..]);
    SameFoot(s, u, c);
    StepLists(u, c[0], false);
  }

  lemma OffHead(s: State, c: seq<RtEntity>)
    requires c != [] && (forall e :: e in c ==> e in s.t.es)
    ensures SameBut(Off(s, c[1..]), Off(s, c), [c[0]])
  {
    var u := Off(s, c[1..]);
    if c[0] in u.on && Prio(u, c[0]) < MAX_RT_PRIO {
      SameButLink(u, c[0], false);
    } else {
      SameButSelf(u, [c[0]]);
    }
  }

  /** The array a higher member of the path sits on is not touched at the foot. */
  lemma StepAbove(s: State, u: State, c: seq<RtEntity>, i: nat)
    requires IsPath(s.t, c) && 0 < i < |c| && SameBut(s, u, [c[0]])
    ensures u.q[c[i].rtRq] == s.q[c[i].rtRq]
  {
    Apart(s.t, c, i);
    assert !OnPath([c[0]], c[i].rtRq);
  }

  lemma {:induction false} OffLists(s: State, c: seq<RtEntity>, i: nat)
    requires Consistent(s) && IsPath(s.t, c) && i < |c|
    ensures Off(s, c).q[c[i].rtRq].queue == Without(s, c[i])
  {
    if i == 0 {
      OffFoot(s, c);
    } else {
      TailIsPath(s.t, c);
      OffLists(s, c[1..], i - 1);
      OffHead(s, c);
      StepAbove(Off(s, c[1..]), Off(s, c), c, i);
      assert c[1..][i - 1] == c[i];
    }
  }

  /** And the array of the foot is not touched above it. */
  lemma StepFoot(s: State, u: State, r: State, c: seq<RtEntity>, head: bool)
    requires Consistent(s) && IsPath(s.t, c) && c != [] && c[0] !in s.on
    requires u == s || u == EnqueueOne(s, c[0], head)
    requires u == s ==> c[0] !in r.on
    requires SameBut(s, u, [c[0]]) && SameBut(u, r, c[1..])
    ensures r.q[c[0].rtRq].queue == With(r, s.q[c[0].rtRq].queue, c[0], head)
  {
    SameFoot(u, r, c);
    assert c[0].myQ != null ==> c[0].myQ != c[0].rtRq;
    StepLists(s, c[0], head);
  }

  lemma EnqueueUpFoot(s: State, c: seq<RtEntity>, head: bool)
    requires Consistent(s) && IsPath(s.t, c) && c != []
    requires forall e :: e in c ==> e !in s.on && (e.myQ == null ==> s.prio[e] < MAX_RT_PRIO)
    ensures var u := EnqueueOne(s, c[0], head);
            && Consistent(u) && SameBut(s, u, [c[0]]) && IsPath(u.t, c[1..])
            && (forall e :: e in c[1..] ==> e !in u.on)
    ensures var r := EnqueueUp(s, c, head);
            r.q[c[0].rtRq].queue == With(r, s.q[c[0].rtRq].queue, c[0], head)
  {
    TailIsPath(s.t, c);
    assert c[0].parent == Above(c, 0);
    EnqueueOneKeeps(s, c[0], head);
    var u := EnqueueOne(s, c[0], head);
    forall e | e in c[1..] ensures e !in u.on {
      assert e !in [c[0]];
    }
    EnqueueUpKeeps(u, c[1..], head);
    StepFoot(s, u, EnqueueUp(u, c[1..], head), c, head);
  }

  lemma {:induction false} EnqueueUpLists(s: State, c: seq<RtEntity>, head: bool, i: nat)
    requires Consistent(s) && IsPath(s.t, c) && i < |c|
    requires forall e :: e in c ==> e !in s.on && (e.myQ == null ==> s.prio[e] < MAX_RT_PRIO)
    ensures var r := EnqueueUp(s, c, head);
            r.q[c[i].rtRq].queue == With(r, s.q[c[i].rtRq].queue, c[i], head)
    decreases |c|
  {
    EnqueueUpFoot(s, c, head);
    if i > 0 {
      var u := EnqueueOne(s, c[0], head);
      StepAbove(s, u, c, i);
      assert c[1..][i - 1] == c[i];
      EnqueueUpLists(u, c[1..], head, i - 1);
    }
  }

  lemma {:induction false} RequeueUpLists(s: State, c: seq<RtEntity>, i: nat)
    requires Consistent(s) && IsPath(s.t, c) && i < |c|
    requires forall e :: e in c ==> e !in s.on
    ensures var r := RequeueUp(s, c);
            r.q[c[i].rtRq].queue == With(r, s.q[c[i].rtRq].queue, c[i], false)
    decreases |c|
  {
    TailIsPath(s.t, c);
    assert c[0].parent == Above(c, 0);
    var u := if c[0].myQ != null && s.q[c[0].myQ].nrRunning != 0 then EnqueueOne(s, c[0], false) else s;
    if c[0].myQ != null && s.q[c[0].myQ].nrRunning != 0 {
      EnqueueOneKeeps(s, c[0], false);
    } else {
      SameButSelf(s, [c[0]]);
    }
    assert forall e :: e in c[1..] ==> e !in [c[0]];
    if i == 0 {
      RequeueUpKeeps(u, c[1..]);
      var r := RequeueUp(u, c[1..]);
      StepFoot(s, u, r, c, false);
    } else {
      StepAbove(s, u, c, i);
      assert c[1..][i - 1] == c[i];
      RequeueUpLists(u, c[1..], i - 1);
    }
  }

  /** enqueue_rt_entity: at every level the entity leaves its old list and, if it belongs on one,
      goes to the requested end of the list of its new priority; nothing else in that array moves. */
  lemma {:induction false} EnqueueOrder(s: State, e: RtEntity, head: bool, i: nat)
    requires Consistent(s) && Tree(s.t) && e in s.t.es && i < |Chain(s.t, e)|
    requires e.myQ == null ==> s.prio[e] < MAX_RT_PRIO
    ensures var r, x := Enqueue(s, e, head), Chain(s.t, e)[i];
            r.q[x.rtRq].queue == With(r, Without(s, x), x, head) && MovedWithin(s, r, x, head)
  {
    var c := Chain(s.t, e);
    hide Chain;
    OffKeeps(s, c);
    OffLists(s, c, i);
    GroupsAbove(s.t, c);
    EnqueueUpLists(Off(s, c), c, head, i);
    hide *;
    WithMoves(s, Enqueue(s, e, head), c[i], head);
  }

  /** dequeue_rt_entity: likewise, the ancestors that stay going to the tail. */
  lemma {:induction false} DequeueOrder(s: State, e: RtEntity, i: nat)
    requires Consistent(s) && Tree(s.t) && e in s.t.es && i < |Chain(s.t, e)|
    ensures var r, x := Dequeue(s, e), Chain(s.t, e)[i];
            r.q[x.rtRq].queue == With(r, Without(s, x), x, false) && MovedWithin(s, r, x, false)
  {
    var c := Chain(s.t, e);
    hide Chain;
    OffKeeps(s, c);
    OffLists(s, c, i);
    RequeueUpLists(Off(s, c), c, i);
    hide *;
    WithMoves(s, Dequeue(s, e), c[i], false);
  }

  // ---------------------------------------------------------------- the counters are determined

  /** Everything about a queue but the order of its lists. */
  ghost predicate SameNumbers(a: Q, b: Q) {
    a.bitmap == b.bitmap && a.nrRunning == b.nrRunning && a.highestPrio == b.highestPrio && a.nrBoosted == b.nrBoosted
  }

  /** Same tree, same task priorities, same throttle flags, same queued tasks. */
  ghost predicate SameTasks(a: State, b: State) {
    && a.t == b.t && a.prio == b.prio && a.normal == b.normal
    && (forall q {:trigger a.q[q]} :: q in a.q ==> a.q[q].throttled == b.q[q].throttled)
    && (forall e :: e in a.t.es && e.myQ == null ==> (e in a.on <==> e in b.on))
  }

  lemma {:induction false} SameLen<T>(a: seq<T>, b: seq<T>)
    requires NoDup(a) && NoDup(b)
    requires forall x :: x in a ==> x in b
    ensures |a| <= |b|
  {
    if a != [] {
      assert a[0] in b;
      var k :| 0 <= k < |b| && b[k] == a[0];
      var b' := b[..k] + b[k + 1..];
      forall x | x in a[1..] ensures x in b' {
        var i :| 0 <= i < |a[1..]| && a[1..][i] == x;
        assert a[i + 1] == x != a[0];
        assert x in b;
        var j :| 0 <= j < |b| && b[j] == x;
        if j < k {
          assert b'[j] == x;
        } else {
          assert b'[j - 1] == x;
        }
      }
      SameLen(a[1..], b');
    }
  }

  lemma {:induction false} SameTotal(a: seq<seq<RtEntity>>, b: seq<seq<RtEntity>>)
    requires |a| == |b| && forall p :: 0 <= p < |a| ==> |a[p]| == |b[p]|
    ensures TotalLen(a) == TotalLen(b)
  {
    if a != [] {
      SameTotal(a[1..], b[1..]);
    }
  }

  /** One queue, once the groups below it are known to agree. */
  lemma SameQueue(a: State, b: State, q: RtRq)
    requires Consistent(a) && Consistent(b) && SameTasks(a, b) && q in a.q
    requires forall e :: e in a.t.es && e.rtRq == q ==> (e in a.on <==> e in b.on)
    requires forall e :: e in a.t.es && e.rtRq == q ==> Prio(a, e) == Prio(b, e) && Boosted(a, e) == Boosted(b, e)
    ensures SameNumbers(a.q[q], b.q[q])
  {
    assert CountsOk(a, q) && CountsOk(b, q);
    assert BoostedOn(a, q) == BoostedOn(b, q);
    forall p | 0 <= p < MAX_RT_PRIO ensures |a.q[q].queue[p]| == |b.q[q].queue[p]| {
      SameList(a, b, q, p);
    }
    SameTotal(a.q[q].queue, b.q[q].queue);
    assert a.q[q].bitmap == b.q[q].bitmap;
  }

  lemma SameList(a: State, b: State, q: RtRq, p: nat)
    requires Consistent(a) && Consistent(b) && SameTasks(a, b) && q in a.q && p < MAX_RT_PRIO
    requires forall e :: e in a.t.es && e.rtRq == q ==> (e in a.on <==> e in b.on)
    requires forall e :: e in a.t.es && e.rtRq == q ==> Prio(a, e) == Prio(b, e)
    ensures |a.q[q].queue[p]| == |b.q[q].queue[p]|
  {
    assert ListOk(a, q, p) && ListOk(b, q, p);
    SameLen(a.q[q].queue[p], b.q[q].queue[p]);
    SameLen(b.q[q].queue[p], a.q[q].queue[p]);
  }

  lemma {:induction false} SameFrom(a: State, b: State, q: RtRq)
    requires Sound(a) && Sound(b) && Missing(a) == Missing(b) && SameTasks(a, b) && Tree(a.t) && q in a.q
    ensures SameNumbers(a.q[q], b.q[q])
    ensures forall e :: e in a.t.es && e.rtRq == q ==> (e in a.on <==> e in b.on)
    decreases a.t.height - a.t.level[q]
  {
    forall e | e in a.t.es && e.rtRq == q
      ensures (e in a.on <==> e in b.on) && Prio(a, e) == Prio(b, e) && Boosted(a, e) == Boosted(b, e)
    {
      if e.myQ != null {
        assert e.myQ in a.t.qs && a.t.tgSe[e.myQ] == e;
        SameFrom(a, b, e.myQ);
        assert Fits(a, e) && Fits(b, e);
        assert e in Missing(a) <==> e in Missing(b);
        assert a.q[e.myQ].throttled == b.q[e.myQ].throttled;
      }
    }
    SameQueue(a, b, q);
  }

  /** Which groups are queued and every bitmap, counter and cached priority in the tree are a function of the
      queued tasks, the throttle flags and the missing groups (none in a valid state): the incremental updates
      never drift. */
  lemma {:induction false} Determined(a: State, b: State)
    requires Sound(a) && Sound(b) && Missing(a) == Missing(b) && SameTasks(a, b) && Tree(a.t)
    ensures a.on == b.on && forall q :: q in a.q ==> SameNumbers(a.q[q], b.q[q])
  {
    forall q | q in a.q ensures SameNumbers(a.q[q], b.q[q]) {
      SameFrom(a, b, q);
    }
    forall e | e in a.t.es ensures e in a.on <==> e in b.on {
      assert e.rtRq in a.q;
      SameFrom(a, b, e.rtRq);
    }
  }

  /** Dequeuing a task undoes enqueuing it, up to the place of its ancestors in their lists. */
  lemma {:induction false} DequeueUndoesEnqueue(s: State, e: RtEntity, head: bool)
    requires Valid(s) && Tree(s.t) && e in s.t.es && e.myQ == null && e !in s.on && s.prio[e] < MAX_RT_PRIO
    ensures var r := Dequeue(Enqueue(s, e, head), e);
            Valid(r) && r.on == s.on && forall q :: q in s.q ==> SameNumbers(r.q[q], s.q[q])
  {
    var u := Enqueue(s, e, head);
    SoundIsValid(s);
    EnqueueSound(s, e, head);
    DequeueSound(u, e);
    var r := Dequeue(u, e);
    GroupsAbove(s.t, Chain(s.t, e));
    assert SameTasks(r, s) by {
      forall x | x in s.t.es && x.myQ == null ensures x in r.on <==> x in s.on {
        if x != e {
          assert x in r.on <==> x in u.on;
        }
      }
    }
    SoundIsValid(r);
    Determined(r, s);
  }
}
