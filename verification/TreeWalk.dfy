/** walk_tg_tree_from: a walk over the tree of task groups, written with gotos and without a stack. */
module TreeWalk {

  datatype Tree<N> = Node(n: N, kids: seq<Tree<N>>)

  /** A visitor answers with an error code (0: go on) and the new value of `data`. */
  type Visitor<!N, !D> = (N, D) -> (int, D)

  // ---------------------------------------------------------------- the recursive walk

  /** Pre-order `down`, post-order `up`; the first non-zero answer ends the walk and is its result. */
  function Visit<N, D>(t: Tree<N>, down: Visitor<Tree<N>, D>, up: Visitor<Tree<N>, D>, d: D): (int, D) {
    var (ret, d1) := down(t, d);
    if ret != 0 then (ret, d1) else Leave(t, 0, down, up, d1)
  }

  /** What is left of the visit of `t` when `done` of its children are finished. */
  function Leave<N, D>(t: Tree<N>, done: nat, down: Visitor<Tree<N>, D>, up: Visitor<Tree<N>, D>, d: D): (int, D)
    requires done <= |t.kids|
    decreases t, |t.kids| - done
  {
    if done == |t.kids| then up(t, d)
    else
      var (ret, d1) := Visit(t.kids[done], down, up, d);
      if ret != 0 then (ret, d1) else Leave(t, done + 1, down, up, d1)
  }

  // ---------------------------------------------------------------- the tour

  datatype Event<N> = Down(t: Tree<N>) | Up(t: Tree<N>)

  /** Every node once on the way down and once on the way up, its whole subtree in between. */
  function Tour<N>(t: Tree<N>): seq<Event<N>> {
    [Down(t)] + TourFrom(t, 0)
  }

  function TourFrom<N>(t: Tree<N>, done: nat): seq<Event<N>>
    requires done <= |t.kids|
    decreases t, |t.kids| - done
  {
    if done == |t.kids| then [Up(t)] else Tour(t.kids[done]) + TourFrom(t, done + 1)
  }

  /** Make the calls one after the other until one of them objects. */
  function Run<N, D>(es: seq<Event<N>>, down: Visitor<Tree<N>, D>, up: Visitor<Tree<N>, D>, d: D): (int, D) {
    if es == [] then (0, d)
    else
      var (ret, d1) := if es[0].Down? then down(es[0].t, d) else up(es[0].t, d);
      if ret != 0 then (ret, d1) else Run(es[1..], down, up, d1)
  }

  lemma {:induction false} RunAppend<N, D>(a: seq<Event<N>>, b: seq<Event<N>>,
                                           down: Visitor<Tree<N>, D>, up: Visitor<Tree<N>, D>, d: D)
    ensures Run(a + b, down, up, d)
         == var (ret, d1) := Run(a, down, up, d); if ret != 0 then (ret, d1) else Run(b, down, up, d1)
  {
    if a == [] {
      assert a + b == b;
    } else {
      var (ret, d1) := if a[0].Down? then down(a[0].t, d) else up(a[0].t, d);
      assert (a + b)[0] == a[0] && (a + b)[1..] == a[1..] + b;
      RunAppend(a[1..], b, down, up, d1);
    }
  }

  /** The walk makes exactly the calls of the tour, in its order, up to the first that objects. */
  lemma {:induction false} VisitIsTour<N, D>(t: Tree<N>, down: Visitor<Tree<N>, D>, up: Visitor<Tree<N>, D>, d: D)
    ensures Visit(t, down, up, d) == Run(Tour(t), down, up, d)
  {
    var (ret, d1) := down(t, d);
    assert Tour(t)[1..] == TourFrom(t, 0);
    if ret == 0 {
      LeaveIsTour(t, 0, down, up, d1);
    }
  }

  lemma {:induction false} LeaveIsTour<N, D>(t: Tree<N>, done: nat, down: Visitor<Tree<N>, D>,
                                             up: Visitor<Tree<N>, D>, d: D)
    requires done <= |t.kids|
    ensures Leave(t, done, down, up, d) == Run(TourFrom(t, done), down, up, d)
    decreases t, |t.kids| - done
  {
    if done < |t.kids| {
      VisitIsTour(t.kids[done], down, up, d);
      RunAppend(Tour(t.kids[done]), TourFrom(t, done + 1), down, up, d);
      var (ret, d1) := Visit(t.kids[done], down, up, d);
      if ret == 0 {
        LeaveIsTour(t, done + 1, down, up, d1);
      }
    }
  }

  /** On the way down a node comes before all of its subtree, on the way up after it; and the tours of its children
      stand in between without a gap, in the order of the children. */
  lemma {:induction false} TourNests<N>(t: Tree<N>, i: nat)
    requires i < |t.kids|
    ensures |Tour(t)| == 2 * Size(t) && Tour(t)[0] == Down(t) && Tour(t)[|Tour(t)| - 1] == Up(t)
    ensures var o := 1 + 2 * (Sizes(t, 0) - Sizes(t, i));
            && 1 <= o <= o + 2 * Size(t.kids[i]) < |Tour(t)|
            && Tour(t)[o..o + 2 * Size(t.kids[i])] == Tour(t.kids[i])
    ensures Sizes(t, i) == Size(t.kids[i]) + Sizes(t, i + 1)
  {
    TourLength(t);
    TourFromNests(t, 0, i);
  }

  lemma {:induction false} TourFromNests<N>(t: Tree<N>, done: nat, i: nat)
    requires done <= i < |t.kids|
    ensures var o, r, n := 2 * (Sizes(t, done) - Sizes(t, i)), TourFrom(t, done), 2 * Size(t.kids[i]);
            && 0 <= o <= o + n < |r| == 1 + 2 * Sizes(t, done) && r[o..o + n] == Tour(t.kids[i]) && r[|r| - 1] == Up(t)
    decreases i - done
  {
    var a, b := Tour(t.kids[done]), TourFrom(t, done + 1);
    TourLength(t.kids[done]);
    TourFromLength(t, done + 1);
    UpLast(t, done);
    assert TourFrom(t, done) == a + b && |a| == 2 * Size(t.kids[done]);
    assert Sizes(t, done) == Size(t.kids[done]) + Sizes(t, done + 1);
    hide *;
    if done < i {
      TourFromNests(t, done + 1, i);
      var o, n := 2 * (Sizes(t, done + 1) - Sizes(t, i)), 2 * Size(t.kids[i]);
      Shifted(a, b, o, n);
    } else {
      assert (a + b)[..|a|] == a;
    }
  }

  lemma Shifted<T>(a: seq<T>, b: seq<T>, o: nat, n: nat)
    requires o + n <= |b|
    ensures (a + b)[|a| + o..|a| + o + n] == b[o..o + n]
  {
  }

  lemma {:induction false} UpLast<N>(t: Tree<N>, done: nat)
    requires done <= |t.kids|
    ensures TourFrom(t, done) != [] && TourFrom(t, done)[|TourFrom(t, done)| - 1] == Up(t)
    decreases |t.kids| - done
  {
    if done < |t.kids| {
      UpLast(t, done + 1);
    }
  }

  /** A walk that no visitor stops makes two calls for each node. */
  lemma {:induction false} TourLength<N>(t: Tree<N>)
    ensures |Tour(t)| == 2 * Size(t)
  {
    TourFromLength(t, 0);
  }

  lemma {:induction false} TourFromLength<N>(t: Tree<N>, done: nat)
    requires done <= |t.kids|
    ensures |TourFrom(t, done)| == 1 + 2 * Sizes(t, done)
    decreases t, |t.kids| - done
  {
    if done < |t.kids| {
      TourLength(t.kids[done]);
      TourFromLength(t, done + 1);
    }
  }

  ghost function Size<N>(t: Tree<N>): nat {
    1 + Sizes(t, 0)
  }

  ghost function Sizes<N>(t: Tree<N>, done: nat): nat
    requires done <= |t.kids|
    decreases t, |t.kids| - done
  {
    if done == |t.kids| then 0 else Size(t.kids[done]) + Sizes(t, done + 1)
  }

  lemma {:induction false} KidSmaller<N>(t: Tree<N>, done: nat, i: nat)
    requires done <= i < |t.kids|
    ensures Size(t.kids[i]) <= Sizes(t, done)
    decreases |t.kids| - done
  {
    if done < i {
      KidSmaller(t, done + 1, i);
    }
  }

  // ---------------------------------------------------------------- the objects

  /** The links of struct task_group; `first` and `sibling` are the list heads of its child list. */
  class TaskGroup {
    var parent: TaskGroup?
    var first: TaskGroup?
    var sibling: TaskGroup?
  }

  function Kid(ts: seq<Tree<TaskGroup>>, i: nat): TaskGroup? {
    if i < |ts| then ts[i].n else null
  }

  /** The objects below t.n are linked up as the tree t; all of them are in gs. */
  ghost predicate Shaped(t: Tree<TaskGroup>, gs: set<TaskGroup>)
    reads gs
    decreases t
  {
    && t.n in gs && t.n.first == Kid(t.kids, 0)
    && forall i :: 0 <= i < |t.kids| ==>
         && Shaped(t.kids[i], gs)
         && t.kids[i].n in gs
         && t.kids[i].n.parent == t.n
         && t.kids[i].n.sibling == Kid(t.kids, i + 1)
  }

  lemma Links(t: Tree<TaskGroup>, gs: set<TaskGroup>)
    requires Shaped(t, gs)
    ensures t.n in gs && t.n.first == Kid(t.kids, 0)
  {
  }

  lemma KidLinks(t: Tree<TaskGroup>, gs: set<TaskGroup>, i: nat)
    requires Shaped(t, gs) && i < |t.kids|
    ensures Shaped(t.kids[i], gs) && t.kids[i].n in gs
    ensures t.kids[i].n.parent == t.n && t.kids[i].n.sibling == Kid(t.kids, i + 1)
  {
  }

  /** An object roots one tree only. */
  lemma {:induction false} SameTree(a: Tree<TaskGroup>, b: Tree<TaskGroup>, gs: set<TaskGroup>)
    requires Shaped(a, gs) && Shaped(b, gs) && a.n == b.n
    ensures a == b
    decreases a
  {
    hide Shaped;
    Links(a, gs);
    Links(b, gs);
    var i := 0;
    while i < |a.kids| && i < |b.kids|
      invariant i <= |a.kids| && i <= |b.kids|
      invariant forall j :: 0 <= j < i ==> a.kids[j] == b.kids[j]
      invariant Kid(a.kids, i) == Kid(b.kids, i)
    {
      KidLinks(a, gs, i);
      KidLinks(b, gs, i);
      SameTree(a.kids[i], b.kids[i], gs);
      i := i + 1;
    }
    assert a.kids == b.kids;
  }

  // ---------------------------------------------------------------- the walk without a stack

  /** A group on the way from the start to the current one, with the index of the child in hand. */
  datatype Frame = Frame(t: Tree<TaskGroup>, done: nat)

  /** The result when the walk stands in the list of children of the innermost frame. */
  ghost function Resume<D>(fs: seq<Frame>, down: Visitor<Tree<TaskGroup>, D>, up: Visitor<Tree<TaskGroup>, D>, d: D):
    (int, D)
    requires Frames(fs)
    decreases |fs|
  {
    var (ret, d1) := Leave(fs[0].t, fs[0].done, down, up, d);
    if ret != 0 || |fs| == 1 then (ret, d1) else Resume(Popped(fs), down, up, d1)
  }

  /** Every frame but the last stands for a child of the next one. */
  ghost predicate Frames(fs: seq<Frame>) {
    && fs != []
    && (forall i :: 0 <= i < |fs| ==> fs[i].done <= |fs[i].t.kids|)
    && (forall i :: 0 < i < |fs| ==> fs[i].done < |fs[i].t.kids| && fs[i].t.kids[fs[i].done] == fs[i - 1].t)
  }

  ghost function Popped(fs: seq<Frame>): (r: seq<Frame>)
    requires Frames(fs) && |fs| > 1
    ensures Frames(r) && |r| == |fs| - 1
  {
    [Frame(fs[1].t, fs[1].done + 1)] + fs[2..]
  }

  ghost function Pushed(fs: seq<Frame>): (r: seq<Frame>)
    requires Frames(fs) && fs[0].done < |fs[0].t.kids|
    ensures Frames(r) && |r| == |fs| + 1
  {
    [Frame(fs[0].t.kids[fs[0].done], 0)] + fs
  }

  /** How many calls may still be made. */
  ghost function Work(fs: seq<Frame>): nat
    requires Frames(fs)
    decreases |fs|
  {
    1 + 2 * Sizes(fs[0].t, fs[0].done) + if |fs| == 1 then 0 else Work(Popped(fs))
  }

  lemma PoppedPushed(fs: seq<Frame>)
    requires Frames(fs) && fs[0].done < |fs[0].t.kids|
    ensures Popped(Pushed(fs)) == fs[0 := Frame(fs[0].t, fs[0].done + 1)]
    ensures |fs| > 1 ==> Popped(Popped(Pushed(fs))) == Popped(fs)
  {
  }

  lemma WorkPushed(fs: seq<Frame>)
    requires Frames(fs) && fs[0].done < |fs[0].t.kids|
    ensures Work(Pushed(fs)) < Work(fs)
  {
    PoppedPushed(fs);
    var next, kid := fs[0 := Frame(fs[0].t, fs[0].done + 1)], fs[0].t.kids[fs[0].done];
    assert Work(Pushed(fs)) == 1 + 2 * Sizes(kid, 0) + Work(next);
    assert Popped(Pushed(fs)) == next;
    assert Sizes(fs[0].t, fs[0].done) == Size(kid) + Sizes(fs[0].t, fs[0].done + 1);
    if |fs| > 1 {
      assert Popped(next) == Popped(fs);
    }
  }

  lemma ResumePushed<D>(fs: seq<Frame>, down: Visitor<Tree<TaskGroup>, D>, up: Visitor<Tree<TaskGroup>, D>, d: D)
    requires Frames(fs) && fs[0].done < |fs[0].t.kids|
    ensures Resume(fs, down, up, d)
         == var (ret, d1) := down(fs[0].t.kids[fs[0].done], d);
            if ret != 0 then (ret, d1) else Resume(Pushed(fs), down, up, d1)
  {
    PoppedPushed(fs);
    var kid := fs[0].t.kids[fs[0].done];
    var (ret, d1) := down(kid, d);
    assert Visit(kid, down, up, d) == if ret != 0 then (ret, d1) else Leave(kid, 0, down, up, d1);
    if ret == 0 {
      var (ret2, d2) := Leave(kid, 0, down, up, d1);
      assert Leave(fs[0].t, fs[0].done, down, up, d)
          == if ret2 != 0 then (ret2, d2) else Leave(fs[0].t, fs[0].done + 1, down, up, d2);
      assert Pushed(fs)[0] == Frame(kid, 0);
      if ret2 == 0 {
        var next := Popped(Pushed(fs));
        assert Resume(Pushed(fs), down, up, d1) == Resume(next, down, up, d2);
        assert |fs| > 1 ==> Popped(next) == Popped(fs);
      }
    }
  }

  ghost predicate Within(fs: seq<Frame>, gs: set<TaskGroup>)
    reads gs
  {
    Frames(fs) && forall i :: 0 <= i < |fs| ==> Shaped(fs[i].t, gs)
  }

  /** The walk is back at its start exactly when one frame is left. */
  lemma StartIsLast(fs: seq<Frame>, gs: set<TaskGroup>, i: nat)
    requires Within(fs, gs) && i < |fs|
    ensures i > 0 ==> Size(fs[0].t) < Size(fs[i].t) && fs[0].t.n != fs[i].t.n
  {
    if i > 0 {
      StartIsLast(fs, gs, i - 1);
      KidSmaller(fs[i].t, 0, fs[i].done);
      if fs[0].t.n == fs[i].t.n {
        SameTree(fs[0].t, fs[i].t, gs);
      }
    }
  }

  ghost function OnNode<N, D>(f: Visitor<N, D>): Visitor<Tree<N>, D> {
    (t: Tree<N>, d: D) => f(t.n, d)
  }

  /** Where the walk stands: in group `parent`, with `child` in hand. */
  ghost predicate Standing(fs: seq<Frame>, gs: set<TaskGroup>, t: Tree<TaskGroup>, parent: TaskGroup, child: TaskGroup?)
    reads gs
  {
    && Within(fs, gs) && fs[0].t.n == parent && child == Kid(fs[0].t.kids, fs[0].done)
    && fs[|fs| - 1].t == t
  }

  lemma Started(t: Tree<TaskGroup>, gs: set<TaskGroup>)
    requires Shaped(t, gs)
    ensures Frames([Frame(t, 0)]) && Standing([Frame(t, 0)], gs, t, t.n, t.n.first)
  {
  }

  /** Going down to a child. */
  lemma {:induction false} StandDown<D>(fs: seq<Frame>, gs: set<TaskGroup>, t: Tree<TaskGroup>, parent: TaskGroup,
                                         child: TaskGroup, down: Visitor<TaskGroup, D>, up: Visitor<TaskGroup, D>, d: D)
    requires Standing(fs, gs, t, parent, child)
    ensures Frames(fs) && fs[0].done < |fs[0].t.kids| && Standing(Pushed(fs), gs, t, child, child.first)
    ensures Work(Pushed(fs)) < Work(fs)
    ensures Resume(fs, OnNode(down), OnNode(up), d)
         == var (ret, d1) := down(child, d);
            if ret != 0 then (ret, d1) else Resume(Pushed(fs), OnNode(down), OnNode(up), d1)
  {
    WorkPushed(fs);
    ResumePushed(fs, OnNode(down), OnNode(up), d);
    hide Resume;
    hide Work;
    assert Shaped(fs[0].t.kids[fs[0].done], gs);
  }

  lemma LeaveDone<D>(f: Frame, down: Visitor<TaskGroup, D>, up: Visitor<TaskGroup, D>, d: D)
    requires f.done <= |f.t.kids| && Kid(f.t.kids, f.done) == null
    ensures Leave(f.t, f.done, OnNode(down), OnNode(up), d) == up(f.t.n, d)
  {
  }

  lemma ResumeMeans<D>(fs: seq<Frame>, down: Visitor<Tree<TaskGroup>, D>, up: Visitor<Tree<TaskGroup>, D>, d: D)
    requires Frames(fs)
    ensures Resume(fs, down, up, d)
         == var (ret, d1) := Leave(fs[0].t, fs[0].done, down, up, d);
            if ret != 0 || |fs| == 1 then (ret, d1) else Resume(Popped(fs), down, up, d1)
  {
  }

  lemma StandPopped(fs: seq<Frame>, gs: set<TaskGroup>, t: Tree<TaskGroup>, parent: TaskGroup)
    requires Standing(fs, gs, t, parent, null) && |fs| > 1
    ensures parent.parent != null && Standing(Popped(fs), gs, t, parent.parent, parent.sibling)
  {
    var p, outer := Popped(fs), fs[1];
    assert outer.t.kids[outer.done] == fs[0].t && p[0] == Frame(outer.t, outer.done + 1);
    hide Shaped;
    hide Frames;
    hide Popped;
    KidLinks(outer.t, gs, outer.done);
    forall i | 0 <= i < |p| ensures Shaped(p[i].t, gs) {
      assert p[i].t == fs[i + 1].t;
    }
  }

  /** Leaving a group whose children are done. */
  lemma {:induction false} StandUp<D>(fs: seq<Frame>, gs: set<TaskGroup>, t: Tree<TaskGroup>, parent: TaskGroup,
                   down: Visitor<TaskGroup, D>, up: Visitor<TaskGroup, D>, d: D)
    requires Standing(fs, gs, t, parent, null)
    ensures Frames(fs) && (parent == t.n <==> |fs| == 1)
    ensures |fs| > 1 ==> parent.parent != null && Standing(Popped(fs), gs, t, parent.parent, parent.sibling)
                         && Work(Popped(fs)) < Work(fs)
    ensures Resume(fs, OnNode(down), OnNode(up), d)
         == var (ret, d1) := up(parent, d);
            if ret != 0 || |fs| == 1 then (ret, d1) else Resume(Popped(fs), OnNode(down), OnNode(up), d1)
  {
    LeaveDone(fs[0], down, up, d);
    StartIsLast(fs, gs, |fs| - 1);
    ResumeMeans(fs, OnNode(down), OnNode(up), d);
    hide Leave;
    hide Shaped;
    hide Resume;
    hide OnNode;
    if |fs| > 1 {
      assert Work(Popped(fs)) < Work(fs);
      StandPopped(fs, gs, t, parent);
    }
  }

  lemma VisitIsResume<D>(t: Tree<TaskGroup>, down: Visitor<TaskGroup, D>, up: Visitor<TaskGroup, D>, d: D)
    ensures Visit(t, OnNode(down), OnNode(up), d)
         == var (ret, d1) := down(t.n, d);
            if ret != 0 then (ret, d1) else Resume([Frame(t, 0)], OnNode(down), OnNode(up), d1)
  {
  }

  /** walk_tg_tree_from: from any group of any finite tree, the result and the calls of the recursive walk. */
  method WalkFrom<D>(from: TaskGroup, down: Visitor<TaskGroup, D>, up: Visitor<TaskGroup, D>, data0: D,
                     ghost t: Tree<TaskGroup>, ghost gs: set<TaskGroup>)
    returns (ret: int, data: D)
    requires Shaped(t, gs) && t.n == from
    ensures (ret, data) == Visit(t, OnNode(down), OnNode(up), data0)
  {
    hide *;
    VisitIsResume(t, down, up, data0);
    Started(t, gs);
    var parent: TaskGroup := from;
    // down:
    var answer := down(parent, data0);
    ret, data := answer.0, answer.1;
    if ret != 0 {
      return;
    }
    var child := parent.first;
    ghost var fs := [Frame(t, 0)];
    while true
      invariant Frames(fs) && Standing(fs, gs, t, parent, child)
      invariant Visit(t, OnNode(down), OnNode(up), data0) == Resume(fs, OnNode(down), OnNode(up), data)
      decreases Work(fs)
    {
      if child != null {
        StandDown(fs, gs, t, parent, child, down, up, data);
        parent := child;
        // down:
        answer := down(parent, data);
        ret, data := answer.0, answer.1;
        if ret != 0 {
          return;
        }
        child := parent.first;
        fs := Pushed(fs);
      } else {
        StandUp(fs, gs, t, parent, down, up, data);
        answer := up(parent, data);
        ret, data := answer.0, answer.1;
        if ret != 0 || parent == from {
          return;
        }
        child, parent := parent, parent.parent;
        // up:
        child := child.sibling;
        fs := Popped(fs);
      }
    }
  }
}
