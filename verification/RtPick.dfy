/** The descending pick finds a most urgent task of the whole tree. */
module RtPick {
  import opened Kernel
  import opened RtTypes
  import opened Lists
  import opened RtState
  import opened RtOps
  import opened RtTheorems

  /** Every entity of the path is queued: the task at its foot can be reached from the root. */
  ghost predicate AllOn(s: State, c: seq<RtEntity>) {
    forall e :: e in c ==> e in s.on
  }

  lemma BestHere(s: State, e: RtEntity)
    requires Consistent(s) && e in s.on
    ensures s.q[e.rtRq].highestPrio <= Prio(s, e)
  {
    assert CountsOk(s, e.rtRq) && ListOk(s, e.rtRq, Prio(s, e));
  }

  /** The root's cached best priority is a lower bound for everything reachable. */
  lemma {:induction false} BestBelow(s: State, c: seq<RtEntity>)
    requires Consistent(s) && Tree(s.t) && IsPath(s.t, c) && c != [] && AllOn(s, c)
    ensures s.q[s.t.root].highestPrio <= Prio(s, c[0])
  {
    BestHere(s, c[0]);
    assert c[0].parent == Above(c, 0);
    assert c[0].rtRq in s.t.qs && (c[0].rtRq in s.t.tgSe || c[0].rtRq == s.t.root);
    if |c| > 1 {
      TailIsPath(s.t, c);
      BestBelow(s, c[1..]);
      assert c[1].myQ == c[0].rtRq;
    }
  }

  /** `x` is first on its list, which is the best list of its queue. */
  ghost predicate Front(s: State, x: RtEntity)
  {
    && x in s.on && x.rtRq in s.q
    && Prio(s, x) == s.q[x.rtRq].highestPrio < MAX_RT_PRIO
    && s.q[x.rtRq].queue[Prio(s, x)] != [] && s.q[x.rtRq].queue[Prio(s, x)][0] == x
  }

  /** pick_next_rt_entity never runs off the bitmap: a non-empty queue has a first entity. */
  lemma PickOne(s: State, q: RtRq)
    requires Consistent(s) && q in s.q && s.q[q].nrRunning != 0
    ensures var idx := FirstBit(s.q[q].bitmap, 0);
            && idx < MAX_RT_PRIO && idx == s.q[q].highestPrio && s.q[q].queue[idx] != []
            && Front(s, s.q[q].queue[idx][0]) && s.q[q].queue[idx][0].rtRq == q
  {
    assert CountsOk(s, q);
    if s.q[q].highestPrio == MAX_RT_PRIO {
      TotalLenZero(s.q[q].queue);
    }
    var idx := FirstBit(s.q[q].bitmap, 0);
    assert s.q[q].bitmap[s.q[q].highestPrio];
    assert ListOk(s, q, idx);
    assert s.q[q].queue[idx][0] in s.q[q].queue[idx];
  }

  /** The task `p` is the best choice: reachable, and at least as urgent as every reachable task. */
  ghost predicate BestTask(s: State, p: RtEntity)
    requires Tree(s.t) && p in s.t.es
  {
    && p.myQ == null && AllOn(s, Chain(s.t, p))
    && (forall x :: x in Chain(s.t, p) ==> Front(s, x))
    && forall t :: t in s.t.es && t.myQ == null && AllOn(s, Chain(s.t, t)) ==> s.prio[p] <= s.prio[t]
  }

  lemma PickIsBest(s: State, p: RtEntity)
    requires Consistent(s) && Tree(s.t) && p in s.t.es && p.myQ == null
    requires forall x :: x in Chain(s.t, p) ==> Front(s, x)
    requires s.prio[p] == s.q[s.t.root].highestPrio
    ensures BestTask(s, p)
  {
    forall t | t in s.t.es && t.myQ == null && AllOn(s, Chain(s.t, t)) ensures s.prio[p] <= s.prio[t] {
      BestBelow(s, Chain(s.t, t));
    }
  }

  /** Where the descent stands at queue `q`: the path from its group up to the root, all at the front. */
  ghost predicate Descended(s: State, c: seq<RtEntity>, q: RtRq) {
    && Tree(s.t) && IsPath(s.t, c) && (forall x :: x in c ==> Front(s, x))
    && q in s.q && s.q[q].nrRunning != 0 && s.q[q].highestPrio == s.q[s.t.root].highestPrio
    && (if c == [] then q == s.t.root else c[0].myQ == q)
  }

  /** One level of the descent: on to the group's own queue, or the best task is found. */
  ghost predicate Step(s: State, c: seq<RtEntity>, q: RtRq, e: RtEntity) {
    && e in s.t.es && Tree(s.t)
    && (if e.myQ == null then BestTask(s, e)
        else q in s.t.level && e.myQ in s.t.level && s.t.level[e.myQ] == s.t.level[q] + 1
             && s.t.level[e.myQ] <= s.t.height && Descended(s, [e] + c, e.myQ))
  }

  lemma DescendOne(s: State, c: seq<RtEntity>, q: RtRq)
    requires Sound(s) && Descended(s, c, q)
    ensures var idx := FirstBit(s.q[q].bitmap, 0);
            idx < MAX_RT_PRIO && s.q[q].queue[idx] != [] && Step(s, c, q, s.q[q].queue[idx][0])
  {
    PickOne(s, q);
    var idx := FirstBit(s.q[q].bitmap, 0);
    var e := s.q[q].queue[idx][0];
    PathUp(s.t, e, c);
    if e.myQ != null {
      assert Fits(s, e);
      assert s.t.tgSe[e.myQ] == e && e.myQ in s.t.qs;
    } else {
      PickIsBest(s, e);
    }
  }

  lemma PathUp(t: Topo, e: RtEntity, c: seq<RtEntity>)
    requires Tree(t) && e in t.es && IsPath(t, c)
    requires if c == [] then e.rtRq == t.root else c[0].myQ == e.rtRq
    ensures IsPath(t, [e] + c) && Chain(t, e) == [e] + c
  {
    assert e.parent == First(c);
    if c != [] {
      ChainUnique(t, c);
    }
  }

  lemma {:induction false} ChainUnique(t: Topo, c: seq<RtEntity>)
    requires Tree(t) && IsPath(t, c) && c != []
    ensures Chain(t, c[0]) == c
  {
    assert c[0].parent == Above(c, 0);
    if |c| > 1 {
      TailIsPath(t, c);
      ChainUnique(t, c[1..]);
    }
  }
}
