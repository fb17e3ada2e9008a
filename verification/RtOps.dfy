/** Whole operations: take an entity and its ancestors off top-down, put them back bottom-up. */
module RtOps {
  import opened Kernel
  import opened RtTypes
  import opened Lists
  import opened RtState

  // ---------------------------------------------------------------- paths

  lemma TailIsPath(t: Topo, c: seq<RtEntity>)
    requires IsPath(t, c) && c != []
    ensures IsPath(t, c[1..]) && c[0] !in c[1..]
    ensures forall e :: e in c ==> e == c[0] || e in c[1..]
  {
    var d := c[1..];
    forall i | 0 <= i < |d| ensures d[i].parent == Above(d, i) && d[i] != c[0] {
      assert d[i] == c[i + 1];
    }
    forall i, j | 0 <= i < j < |d| ensures d[i] != d[j] {
      assert d[i] == c[i + 1] && d[j] == c[j + 1];
    }
  }

  /** The queue is one a member of the path sits on. */
  ghost predicate OnPath(c: seq<RtEntity>, q: RtRq) {
    exists i :: 0 <= i < |c| && c[i].rtRq == q
  }

  lemma OnPathTail(c: seq<RtEntity>, q: RtRq)
    requires c != []
    ensures OnPath(c, q) <==> OnPath([c[0]], q) || OnPath(c[1..], q)
  {
    assert [c[0]][0] == c[0];
    if OnPath(c, q) {
      var i :| 0 <= i < |c| && c[i].rtRq == q;
      if i > 0 {
        assert c[1..][i - 1] == c[i];
      }
    }
    if OnPath(c[1..], q) {
      var i :| 0 <= i < |c[1..]| && c[1..][i].rtRq == q;
      assert c[i + 1].rtRq == q;
    }
  }

  /** Only a member of the path can own a queue that another member sits on. */
  lemma OwnerOnPath(t: Topo, c: seq<RtEntity>, x: RtEntity)
    requires Linkage(t) && IsPath(t, c) && x in t.es && x.myQ != null && OnPath(c, x.myQ)
    ensures x in c && x != c[0]
  {
    var i :| 0 <= i < |c| && c[i].rtRq == x.myQ;
    assert c[i].parent == x;
    assert i + 1 < |c| && c[i + 1] == x;
  }

  /** The members of a path sit on different queues. */
  lemma FootAlone(t: Topo, c: seq<RtEntity>)
    requires Linkage(t) && IsPath(t, c) && c != []
    ensures !OnPath(c[1..], c[0].rtRq)
  {
    forall i | 0 <= i < |c[1..]| ensures c[1..][i].rtRq != c[0].rtRq {
      assert c[1..][i] == c[i + 1];
      assert c[i + 1].parent == Above(c, i + 1) && c[0].parent == Above(c, 0);
    }
  }

  // ---------------------------------------------------------------- the operations

  /** dequeue_rt_stack on the path `c`: the top goes first. */
  ghost function Off(s: State, c: seq<RtEntity>): (r: State)
    requires (forall e :: e in c ==> e in s.t.es)
    ensures r.t == s.t
  {
    if c == [] then s
    else
      OffOne(Off(s, c[1..]), c[0])
  }

  ghost function OffOne(s: State, e: RtEntity): (r: State)
    requires e in s.t.es
    ensures r.t == s.t
  {
    if e in s.on && Prio(s, e) < MAX_RT_PRIO then Unlink(s, e) else s
  }

  /** __enqueue_rt_entity: an empty or throttled group stays off.  (A non-empty group has a priority
      below MAX_RT_PRIO in every consistent state; a task is required to.) */
  ghost function EnqueueOne(s: State, e: RtEntity, head: bool): (r: State)
    requires e in s.t.es
    ensures r.t == s.t
  {
    if (e.myQ != null && !Runnable(s.q[e.myQ])) || Prio(s, e) >= MAX_RT_PRIO then s else Link(s, e, head)
  }

  /** The upward loop of enqueue_rt_entity. */
  ghost function EnqueueUp(s: State, c: seq<RtEntity>, head: bool): (r: State)
    requires (forall e :: e in c ==> e in s.t.es)
    ensures r.t == s.t
    decreases |c|
  {
    if c == [] then s else EnqueueUp(EnqueueOne(s, c[0], head), c[1..], head)
  }

  /** enqueue_rt_entity. */
  ghost function Enqueue(s: State, e: RtEntity, head: bool): (r: State)
    requires Tree(s.t) && e in s.t.es
    ensures r.t == s.t
  {
    var c := Chain(s.t, e);
    EnqueueUp(Off(s, c), c, head)
  }

  /** The upward loop of dequeue_rt_entity: only groups that still have members go back. */
  ghost function RequeueUp(s: State, c: seq<RtEntity>): (r: State)
    requires (forall e :: e in c ==> e in s.t.es)
    ensures r.t == s.t
    decreases |c|
  {
    if c == [] then s
    else
      var u := if c[0].myQ != null && s.q[c[0].myQ].nrRunning != 0 then EnqueueOne(s, c[0], false) else s;
      RequeueUp(u, c[1..])
  }

  /** dequeue_rt_entity. */
  ghost function Dequeue(s: State, e: RtEntity): (r: State)
    requires Tree(s.t) && e in s.t.es
    ensures r.t == s.t
  {
    var c := Chain(s.t, e);
    RequeueUp(Off(s, c), c)
  }

  // ---------------------------------------------------------------- what an operation leaves alone

  /** Only queues the path sits on and the linkage of the path's members differ. */
  ghost predicate SameBut(s: State, r: State, c: seq<RtEntity>) {
    && r.t == s.t && r.prio == s.prio && r.normal == s.normal
    && (forall q {:trigger r.q[q]} :: q in s.q ==> r.q[q].throttled == s.q[q].throttled)
    && (forall q {:trigger r.q[q]} :: q in s.q && !OnPath(c, q) ==> r.q[q] == s.q[q])
    && (forall e {:trigger e in r.on} :: e in s.t.es && e !in c ==> (e in r.on <==> e in s.on))
  }

  /** Groups off the path keep their standing. */
  lemma SameGroups(s: State, r: State, c: seq<RtEntity>, e: RtEntity)
    requires SameBut(s, r, c) && IsPath(s.t, c) && e in s.t.es && e !in c
    ensures Fits(r, e) == Fits(s, e) && GroupOk(r, e) == GroupOk(s, e) && (e in Missing(r) <==> e in Missing(s))
  {
    if e.myQ != null && OnPath(c, e.myQ) {
      OwnerOnPath(s.t, c, e);
    }
  }

  /** So does the foot of the path with respect to what happens above it. */
  lemma SameFoot(s: State, r: State, c: seq<RtEntity>)
    requires IsPath(s.t, c) && c != [] && SameBut(s, r, c[1..])
    ensures Prio(r, c[0]) == Prio(s, c[0]) && Boosted(r, c[0]) == Boosted(s, c[0])
    ensures GroupOk(r, c[0]) == GroupOk(s, c[0]) && (c[0] in r.on <==> c[0] in s.on)
    ensures r.q[c[0].rtRq] == s.q[c[0].rtRq]
  {
    TailIsPath(s.t, c);
    SameGroups(s, r, c[1..], c[0]);
    if c[0].myQ != null && OnPath(c[1..], c[0].myQ) {
      OwnerOnPath(s.t, c[1..], c[0]);
    }
    FootAlone(s.t, c);
  }

  lemma SameButTrans(s: State, u: State, r: State, c: seq<RtEntity>)
    requires IsPath(s.t, c) && c != []
    requires (SameBut(s, u, c[1..]) && SameBut(u, r, [c[0]])) || (SameBut(s, u, [c[0]]) && SameBut(u, r, c[1..]))
    ensures SameBut(s, r, c)
  {
    TailIsPath(s.t, c);
    forall q | q in s.q && !OnPath(c, q) ensures r.q[q] == s.q[q] {
      OnPathTail(c, q);
    }
  }

  lemma SameButOne(s: State, r: State, e: RtEntity, q: Q)
    requires e in s.t.es && r.t == s.t && r.prio == s.prio && r.normal == s.normal
    requires r.q == s.q[e.rtRq := q] && q.throttled == s.q[e.rtRq].throttled
    requires r.on == s.on + {e} || r.on == s.on - {e}
    ensures SameBut(s, r, [e])
  {
    assert [e][0].rtRq == e.rtRq;
  }

  lemma SameButLink(s: State, e: RtEntity, head: bool)
    requires e in s.t.es && Prio(s, e) < MAX_RT_PRIO
    ensures SameBut(s, Link(s, e, head), [e])
    ensures SameBut(s, Unlink(s, e), [e])
  {
    hide SameBut;
    SameButOne(s, Link(s, e, head), e, Linked(s.q[e.rtRq], e, Prio(s, e), Boosted(s, e), head));
    SameButOne(s, Unlink(s, e), e, Unlinked(s.q[e.rtRq], e, Prio(s, e), Boosted(s, e)));
  }

  lemma SameButSelf(s: State, c: seq<RtEntity>)
    ensures SameBut(s, s, c)
  {
  }

  // ---------------------------------------------------------------- top-down removal

  lemma {:induction false} OffKeeps(s: State, c: seq<RtEntity>)
    requires Consistent(s) && IsPath(s.t, c)
    ensures Consistent(Off(s, c)) && SameBut(s, Off(s, c), c)
    ensures forall e :: e in c ==> e !in Off(s, c).on
  {
    if c == [] {
      SameButSelf(s, c);
    } else {
      TailIsPath(s.t, c);
      OffKeeps(s, c[1..]);
      var u := Off(s, c[1..]);
      assert c[0].parent == Above(c, 0);
      if c[0] in u.on {
        UnlinkKeeps(u, c[0]);
        SameButLink(u, c[0], false);
      } else {
        SameButSelf(u, [c[0]]);
      }
      SameButTrans(s, u, Off(s, c), c);
    }
  }

  // ---------------------------------------------------------------- bottom-up insertion

  lemma EnqueueOneKeeps(s: State, e: RtEntity, head: bool)
    requires Consistent(s) && e in s.t.es && e !in s.on && ParentOff(s, e)
    requires e.myQ == null ==> s.prio[e] < MAX_RT_PRIO
    ensures var r := EnqueueOne(s, e, head);
            && Consistent(r) && SameBut(s, r, [e]) && GroupOk(r, e) && (e.myQ == null ==> e in r.on)
  {
    if e.myQ != null {
      assert CountsOk(s, e.myQ);
      if Prio(s, e) == MAX_RT_PRIO {
        TotalLenZero(s.q[e.myQ].queue);
      }
    }
    var r := EnqueueOne(s, e, head);
    if r == s {
      SameButSelf(s, [e]);
    } else {
      LinkKeeps(s, e, head);
      SameButLink(s, e, head);
      assert e.myQ != null ==> r.q[e.myQ] == s.q[e.myQ];
    }
  }

  lemma {:induction false} EnqueueUpKeeps(s: State, c: seq<RtEntity>, head: bool)
    requires Consistent(s) && IsPath(s.t, c)
    requires forall e :: e in c ==> e !in s.on && (e.myQ == null ==> s.prio[e] < MAX_RT_PRIO)
    ensures var r := EnqueueUp(s, c, head);
            && Consistent(r) && SameBut(s, r, c)
            && forall e :: e in c ==> GroupOk(r, e) && (e.myQ == null ==> e in r.on)
    decreases |c|
  {
    if c == [] {
      SameButSelf(s, c);
    } else {
      TailIsPath(s.t, c);
      assert c[0].parent == Above(c, 0);
      EnqueueOneKeeps(s, c[0], head);
      var u := EnqueueOne(s, c[0], head);
      assert forall e :: e in c[1..] ==> e !in [c[0]];
      EnqueueUpKeeps(u, c[1..], head);
      var r := EnqueueUp(u, c[1..], head);
      SameFoot(u, r, c);
      SameButTrans(s, u, r, c);
    }
  }

  lemma {:induction false} RequeueUpKeeps(s: State, c: seq<RtEntity>)
    requires Consistent(s) && IsPath(s.t, c)
    requires forall e :: e in c ==> e !in s.on
    ensures var r := RequeueUp(s, c);
            && Consistent(r) && SameBut(s, r, c)
            && forall e :: e in c ==> GroupOk(r, e) && (e.myQ == null ==> e !in r.on)
    decreases |c|
  {
    if c == [] {
      SameButSelf(s, c);
    } else {
      TailIsPath(s.t, c);
      assert c[0].parent == Above(c, 0);
      var u := if c[0].myQ != null && s.q[c[0].myQ].nrRunning != 0 then EnqueueOne(s, c[0], false) else s;
      if c[0].myQ != null && s.q[c[0].myQ].nrRunning != 0 {
        EnqueueOneKeeps(s, c[0], false);
      } else {
        SameButSelf(s, [c[0]]);
      }
      assert forall e :: e in c[1..] ==> e !in [c[0]];
      RequeueUpKeeps(u, c[1..]);
      var r := RequeueUp(u, c[1..]);
      SameFoot(u, r, c);
      SameButTrans(s, u, r, c);
    }
  }

  lemma SameButTwice(s: State, u: State, r: State, c: seq<RtEntity>)
    requires SameBut(s, u, c) && SameBut(u, r, c)
    ensures SameBut(s, r, c)
  {
  }

  ghost function Members(c: seq<RtEntity>): set<RtEntity> {
    set e | e in c
  }

  /** Once the groups on the path are right and nothing else changed, no group is queued that must not be,
      and just those off the path that were missing still are. */
  lemma PathSound(s: State, u: State, r: State, c: seq<RtEntity>)
    requires SoundBut(s, c) && IsPath(s.t, c) && SameBut(s, u, c) && SameBut(u, r, c)
    requires Consistent(r) && forall e :: e in c ==> GroupOk(r, e)
    ensures Sound(r) && SameBut(s, r, c) && Missing(r) == Missing(s) - Members(c)
  {
    SameButTwice(s, u, r, c);
    forall x | x in r.t.es ensures Fits(r, x) && (x in Missing(r) <==> x in Missing(s) && x !in c) {
      if x in c {
        assert GroupOk(r, x);
      } else {
        SameGroups(s, r, c, x);
        assert Fits(s, x);
      }
    }
  }

  /** Above its foot a path holds groups only. */
  lemma GroupsAbove(t: Topo, c: seq<RtEntity>)
    requires Linkage(t) && IsPath(t, c)
    ensures forall e :: e in c && e.myQ == null ==> e == c[0]
  {
    forall i | 0 < i < |c| ensures c[i].myQ != null {
      assert c[i - 1].parent == Above(c, i - 1);
    }
  }

  /** enqueue_rt_entity leaves no group queued that must not be, whatever was wrong with the entity and its
      ancestors, and of the groups that were missing just those elsewhere still are. */
  lemma {:induction false} EnqueueSound(s: State, e: RtEntity, head: bool)
    requires Tree(s.t) && e in s.t.es && SoundBut(s, Chain(s.t, e))
    requires e.myQ == null ==> s.prio[e] < MAX_RT_PRIO
    ensures Sound(Enqueue(s, e, head)) && SameBut(s, Enqueue(s, e, head), Chain(s.t, e))
    ensures Missing(Enqueue(s, e, head)) == Missing(s) - Members(Chain(s.t, e))
    ensures e.myQ == null ==> e in Enqueue(s, e, head).on
  {
    var c := Chain(s.t, e);
    hide Chain;
    OffKeeps(s, c);
    GroupsAbove(s.t, c);
    var u := Off(s, c);
    EnqueueUpKeeps(u, c, head);
    PathSound(s, u, EnqueueUp(u, c, head), c);
  }

  /** So does dequeue_rt_entity. */
  lemma {:induction false} DequeueSound(s: State, e: RtEntity)
    requires Tree(s.t) && e in s.t.es && SoundBut(s, Chain(s.t, e))
    ensures Sound(Dequeue(s, e)) && SameBut(s, Dequeue(s, e), Chain(s.t, e))
    ensures Missing(Dequeue(s, e)) == Missing(s) - Members(Chain(s.t, e))
    ensures e.myQ == null ==> e !in Dequeue(s, e).on
  {
    var c := Chain(s.t, e);
    hide Chain;
    OffKeeps(s, c);
    var u := Off(s, c);
    RequeueUpKeeps(u, c);
    PathSound(s, u, RequeueUp(u, c), c);
  }

  /** Hence both keep the invariant of the whole tree, and restore it when only the entity and its ancestors
      are out of place. */
  lemma {:induction false} OperationsValid(s: State, e: RtEntity, head: bool)
    requires Tree(s.t) && e in s.t.es && SoundBut(s, Chain(s.t, e)) && Missing(s) <= Members(Chain(s.t, e))
    ensures Valid(Dequeue(s, e))
    ensures (e.myQ == null ==> s.prio[e] < MAX_RT_PRIO) ==> Valid(Enqueue(s, e, head))
  {
    DequeueSound(s, e);
    SoundIsValid(Dequeue(s, e));
    if e.myQ == null ==> s.prio[e] < MAX_RT_PRIO {
      EnqueueSound(s, e, head);
      SoundIsValid(Enqueue(s, e, head));
    }
  }
}
