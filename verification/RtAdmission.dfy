/** Admission control for real-time group bandwidth: which runtimes and periods a group may be given. */
module RtAdmission {
  import opened Kernel
  import opened TreeWalk

  /** A value kept in a 64-bit word. */
  function U64(x: int): (r: nat)
    ensures r < 0x1_0000_0000_0000_0000
  {
    x % 0x1_0000_0000_0000_0000
  }

  /** The bandwidth settings of a task group. */
  datatype Group = Group(id: nat, period: nat, runtime: nat)

  type Int32 = x: int | -0x8000_0000 <= x < 0x8000_0000
  type UInt32 = x: int | 0 <= x < 0x1_0000_0000

  /** sysctl_sched_rt_period, which is unsigned, and sysctl_sched_rt_runtime, in microseconds. */
  datatype Global = Global(periodUs: UInt32, runtimeUs: Int32)

  /** proc_dointvec stores a signed number; read as an unsigned one, a negative one is huge. */
  function AsUnsigned(x: Int32): (r: UInt32)
    ensures AsSigned(r) == x
  {
    if x < 0 then x + 0x1_0000_0000 else x
  }

  function AsSigned(x: UInt32): Int32 {
    if x < 0x8000_0000 then x else x - 0x1_0000_0000
  }

  /** struct rt_schedulable_data: the group to be changed, if any, and its new settings. */
  datatype Change = Change(tg: Option<nat>, period: nat, runtime: nat)

  const NO_CHANGE := Change(None, 0, 0)

  function GlobalPeriod(g: Global): nat {
    U64(g.periodUs * NSEC_PER_USEC)
  }

  function GlobalRuntime(g: Global): nat {
    if g.runtimeUs < 0 then RUNTIME_INF else U64(g.runtimeUs * NSEC_PER_USEC)
  }

  /** The settings a group would have after the change. */
  function Changed(x: Group, d: Change): Group {
    if d.tg == Some(x.id) then Group(x.id, d.period, d.runtime) else x
  }

  function Ratio(x: Group): nat {
    ToRatio(x.period, x.runtime)
  }

  function SumRatios(ts: seq<Tree<Group>>): nat {
    if ts == [] then 0 else SumRatios(ts[..|ts| - 1]) + Ratio(ts[|ts| - 1].n)
  }

  // ---------------------------------------------------------------- one group

  /** What makes a group inadmissible, in the order of the tests; 0 when nothing does. */
  function Fault(t: Tree<Group>, g: Global, busy: set<nat>): int {
    if t.n.runtime > t.n.period && t.n.runtime != RUNTIME_INF then -EINVAL
    else if g.runtimeUs >= 0 && t.n.runtime == 0 && t.n.id in busy then -EBUSY
    else if Ratio(t.n) > ToRatio(GlobalPeriod(g), GlobalRuntime(g)) then -EINVAL
    else if SumRatios(t.kids) > Ratio(t.n) then -EINVAL
    else 0
  }

  /** The whole tree with the change made. */
  function Apply(t: Tree<Group>, d: Change): Tree<Group> {
    Node(Changed(t.n, d), ApplyAll(t.kids, d))
  }

  function ApplyAll(ts: seq<Tree<Group>>, d: Change): (r: seq<Tree<Group>>)
    ensures |r| == |ts| && forall i :: 0 <= i < |ts| ==> r[i] == Apply(ts[i], d)
  {
    if ts == [] then [] else ApplyAll(ts[..|ts| - 1], d) + [Apply(ts[|ts| - 1], d)]
  }

  /** tg_rt_schedulable judges the group as if the change were already made. */
  method TgRtSchedulable(t: Tree<Group>, d: Change, g: Global, busy: set<nat>) returns (ret: int)
    ensures ret == Fault(Apply(t, d), g, busy)
    ensures var period, runtime := if d.tg == Some(t.n.id) then d.period else t.n.period,
                                   if d.tg == Some(t.n.id) then d.runtime else t.n.runtime;
            && (ret == -EBUSY <==> (runtime <= period || runtime == RUNTIME_INF)
                                   && g.runtimeUs >= 0 && runtime == 0 && t.n.id in busy)
            && (ret != 0 && ret != -EBUSY ==> ret == -EINVAL)
            && (ret == 0 ==> (runtime <= period || runtime == RUNTIME_INF)
                             && ToRatio(period, runtime) <= ToRatio(GlobalPeriod(g), GlobalRuntime(g)))
  {
    hide ToRatio;
    var period, runtime := t.n.period, t.n.runtime;
    if d.tg == Some(t.n.id) {
      period, runtime := d.period, d.runtime;
    }
    if runtime > period && runtime != RUNTIME_INF {
      return -EINVAL;
    }
    if g.runtimeUs >= 0 && runtime == 0 && t.n.id in busy {
      return -EBUSY;
    }
    var total := ToRatio(period, runtime);
    if total > ToRatio(GlobalPeriod(g), GlobalRuntime(g)) {
      return -EINVAL;
    }
    var sum := 0;
    ghost var kids := ApplyAll(t.kids, d);
    for i := 0 to |t.kids|
      invariant sum == SumRatios(kids[..i])
    {
      var child := t.kids[i];
      period, runtime := child.n.period, child.n.runtime;
      if d.tg == Some(child.n.id) {
        period, runtime := d.period, d.runtime;
      }
      sum := sum + ToRatio(period, runtime);
      assert kids[..i + 1][..i] == kids[..i] && kids[i].n == Changed(child.n, d);
    }
    assert kids[..|t.kids|] == kids;
    if sum > total {
      return -EINVAL;
    }
    return 0;
  }

  // ---------------------------------------------------------------- the whole tree

  function Judge(g: Global, busy: set<nat>): Visitor<Tree<Group>, Change> {
    (t: Tree<Group>, d: Change) => (Fault(Apply(t, d), g, busy), d)
  }

  /** tg_nop. */
  function Nop(): Visitor<Tree<Group>, Change> {
    (t: Tree<Group>, d: Change) => (0, d)
  }

  /** __rt_schedulable. */
  function RtSchedulable(t: Tree<Group>, d: Change, g: Global, busy: set<nat>): int {
    Visit(t, Judge(g, busy), Nop(), d).0
  }

  /** No group of the tree is inadmissible. */
  ghost predicate AllFit(t: Tree<Group>, g: Global, busy: set<nat>) {
    Fault(t, g, busy) == 0 && forall i :: 0 <= i < |t.kids| ==> AllFit(t.kids[i], g, busy)
  }

  /** The change passes iff afterwards every group is admissible. */
  lemma {:induction false} PassesIffAllFit(t: Tree<Group>, d: Change, g: Global, busy: set<nat>)
    ensures RtSchedulable(t, d, g, busy) == 0 <==> AllFit(Apply(t, d), g, busy)
    ensures Visit(t, Judge(g, busy), Nop(), d).1 == d
    decreases t, |t.kids| + 1
  {
    KidsPass(t, 0, d, g, busy);
    assert Apply(t, d).kids == ApplyAll(t.kids, d);
  }

  lemma {:induction false} KidsPass(t: Tree<Group>, done: nat, d: Change, g: Global, busy: set<nat>)
    requires done <= |t.kids|
    ensures Leave(t, done, Judge(g, busy), Nop(), d).0 == 0 <==> AllFitFrom(t.kids, done, d, g, busy)
    ensures Leave(t, done, Judge(g, busy), Nop(), d).1 == d
    decreases t, |t.kids| - done
  {
    if done < |t.kids| {
      PassesIffAllFit(t.kids[done], d, g, busy);
      KidsPass(t, done + 1, d, g, busy);
      assert AllFitFrom(t.kids, done, d, g, busy)
        <==> AllFit(Apply(t.kids[done], d), g, busy) && AllFitFrom(t.kids, done + 1, d, g, busy);
    }
  }

  ghost predicate AllFitFrom(ts: seq<Tree<Group>>, done: nat, d: Change, g: Global, busy: set<nat>) {
    forall i :: done <= i < |ts| ==> AllFit(Apply(ts[i], d), g, busy)
  }

  // ---------------------------------------------------------------- what admission is for

  /** The constraints themselves, without the question who has real-time tasks. */
  ghost predicate Fits(t: Tree<Group>, limit: nat) {
    && t.n.period > 0 && (t.n.runtime <= t.n.period || t.n.runtime == RUNTIME_INF)
    && Ratio(t.n) <= limit && SumRatios(t.kids) <= Ratio(t.n)
    && forall i :: 0 <= i < |t.kids| ==> Fits(t.kids[i], limit)
  }

  /** No two of the picked groups are one above the other. */
  ghost predicate Antichain(t: Tree<Group>, pick: set<nat>) {
    if t.n.id in pick then forall i :: 0 <= i < |t.kids| ==> NoneIn(t.kids[i], pick)
    else forall i :: 0 <= i < |t.kids| ==> Antichain(t.kids[i], pick)
  }

  ghost predicate NoneIn(t: Tree<Group>, pick: set<nat>) {
    t.n.id !in pick && forall i :: 0 <= i < |t.kids| ==> NoneIn(t.kids[i], pick)
  }

  /** The ratios of the picked groups of some trees, added up. */
  ghost function Picked(t: Tree<Group>, pick: set<nat>): nat {
    (if t.n.id in pick then Ratio(t.n) else 0) + PickedAll(t.kids, pick)
  }

  ghost function PickedAll(ts: seq<Tree<Group>>, pick: set<nat>): nat {
    if ts == [] then 0 else PickedAll(ts[..|ts| - 1], pick) + Picked(ts[|ts| - 1], pick)
  }

  lemma {:induction false} NothingPicked(t: Tree<Group>, pick: set<nat>)
    requires NoneIn(t, pick)
    ensures Picked(t, pick) == 0
  {
    NothingPickedAll(t.kids, pick);
  }

  lemma {:induction false} NothingPickedAll(ts: seq<Tree<Group>>, pick: set<nat>)
    requires forall i :: 0 <= i < |ts| ==> NoneIn(ts[i], pick)
    ensures PickedAll(ts, pick) == 0
  {
    if ts != [] {
      NothingPickedAll(ts[..|ts| - 1], pick);
      NothingPicked(ts[|ts| - 1], pick);
    }
  }

  /** Groups of which none contains another never have more than the group above them all. */
  lemma {:induction false} AntichainBound(t: Tree<Group>, limit: nat, pick: set<nat>)
    requires Fits(t, limit) && Antichain(t, pick)
    ensures Picked(t, pick) <= Ratio(t.n) <= limit
  {
    if t.n.id in pick {
      NothingPickedAll(t.kids, pick);
    } else {
      AntichainBoundAll(t.kids, limit, pick);
    }
  }

  lemma {:induction false} AntichainBoundAll(ts: seq<Tree<Group>>, limit: nat, pick: set<nat>)
    requires forall i :: 0 <= i < |ts| ==> Fits(ts[i], limit) && Antichain(ts[i], pick)
    ensures PickedAll(ts, pick) <= SumRatios(ts)
  {
    if ts != [] {
      AntichainBoundAll(ts[..|ts| - 1], limit, pick);
      AntichainBound(ts[|ts| - 1], limit, pick);
    }
  }

  // ---------------------------------------------------------------- true shares

  /** The part of a CPU a group really gets. */
  ghost function Share(x: Group): real
    requires x.period > 0
  {
    if x.runtime == RUNTIME_INF then 1.0 else x.runtime as real / x.period as real
  }

  ghost function Count(t: Tree<Group>, pick: set<nat>): nat {
    (if t.n.id in pick then 1 else 0) + CountAll(t.kids, pick)
  }

  ghost function CountAll(ts: seq<Tree<Group>>, pick: set<nat>): nat {
    if ts == [] then 0 else CountAll(ts[..|ts| - 1], pick) + Count(ts[|ts| - 1], pick)
  }

  ghost predicate Timed(t: Tree<Group>) {
    t.n.period > 0 && forall i :: 0 <= i < |t.kids| ==> Timed(t.kids[i])
  }

  ghost function Shares(t: Tree<Group>, pick: set<nat>): real
    requires Timed(t)
  {
    (if t.n.id in pick then Share(t.n) else 0.0) + SharesAll(t.kids, pick)
  }

  ghost function SharesAll(ts: seq<Tree<Group>>, pick: set<nat>): real
    requires forall i :: 0 <= i < |ts| ==> Timed(ts[i])
  {
    if ts == [] then 0.0 else SharesAll(ts[..|ts| - 1], pick) + Shares(ts[|ts| - 1], pick)
  }

  /** to_ratio loses less than one unit. */
  lemma RatioTruncates(x: Group)
    requires x.period > 0
    ensures Ratio(x) as real <= Share(x) * ONE as real < Ratio(x) as real + 1.0
  {
    if x.runtime != RUNTIME_INF {
      var q, r := x.runtime * ONE / x.period, x.runtime * ONE % x.period;
      assert x.runtime * ONE == q * x.period + r && 0 <= r < x.period;
      Division(x.runtime, x.period, q);
    }
  }

  lemma Division(runtime: nat, period: nat, q: nat)
    requires period > 0 && q * period <= runtime * ONE < q * period + period
    ensures q as real <= runtime as real / period as real * ONE as real < q as real + 1.0
  {
    var p, share := period as real, runtime as real / period as real;
    assert share * p == runtime as real;
    assert (q * period) as real == q as real * p;
    assert (runtime * ONE) as real == share * ONE as real * p;
    assert (q * period + period) as real == (q as real + 1.0) * p;
    Cancel(q as real, share * ONE as real, p);
    Cancel(share * ONE as real, q as real + 1.0, p);
    if share * ONE as real >= q as real + 1.0 {
      Cancel(q as real + 1.0, share * ONE as real, p);
    }
  }

  lemma Cancel(a: real, b: real, p: real)
    requires p > 0.0
    ensures a * p <= b * p <==> a <= b
  {
    if a <= b {
      assert (b - a) * p >= 0.0;
    } else {
      assert (a - b) * p > 0.0;
    }
  }

  lemma {:induction false} SharesNearRatios(t: Tree<Group>, pick: set<nat>)
    requires Timed(t)
    ensures Shares(t, pick) * ONE as real <= (Picked(t, pick) + Count(t, pick)) as real
    ensures Count(t, pick) > 0 ==> Shares(t, pick) * ONE as real < (Picked(t, pick) + Count(t, pick)) as real
  {
    SharesNearRatiosAll(t.kids, pick);
    RatioTruncates(t.n);
  }

  lemma {:induction false} SharesNearRatiosAll(ts: seq<Tree<Group>>, pick: set<nat>)
    requires forall i :: 0 <= i < |ts| ==> Timed(ts[i])
    ensures SharesAll(ts, pick) * ONE as real <= (PickedAll(ts, pick) + CountAll(ts, pick)) as real
    ensures CountAll(ts, pick) > 0 ==>
              SharesAll(ts, pick) * ONE as real < (PickedAll(ts, pick) + CountAll(ts, pick)) as real
  {
    if ts != [] {
      SharesNearRatiosAll(ts[..|ts| - 1], pick);
      SharesNearRatios(ts[|ts| - 1], pick);
    }
  }

  lemma {:induction false} FitsTimed(t: Tree<Group>, limit: nat)
    requires Fits(t, limit)
    ensures Timed(t)
  {
    forall i | 0 <= i < |t.kids| ensures Timed(t.kids[i]) {
      FitsTimed(t.kids[i], limit);
    }
  }

  // ---------------------------------------------------------------- all admission decisions

  /** What the system administrator asks for; `busy` are the groups with real-time tasks at that moment. */
  datatype Cmd =
    | SetRuntime(id: nat, us: int, busy: set<nat>)
    | SetPeriod(id: nat, us: int, busy: set<nat>)
    | Create(parent: nat, id: nat)
    | Destroy(id: nat)
    | Sysctl(periodUs: Int32, runtimeUs: Int32, busy: set<nat>)      // the numbers written

  datatype State = State(tree: Tree<Group>, global: Global, defPeriod: nat)

  /** The ratio nobody may exceed. */
  function Limit(g: Global): nat {
    ToRatio(GlobalPeriod(g), GlobalRuntime(g))
  }

  ghost predicate Sane(g: Global) {
    && g.periodUs > 0
    && (GlobalRuntime(g) <= GlobalPeriod(g) || GlobalRuntime(g) == RUNTIME_INF)
  }

  ghost predicate Inv(s: State) {
    Sane(s.global) && s.defPeriod > 0 && Fits(s.tree, Limit(s.global))
  }

  /** In every state that keeps the invariant, any groups of which none contains another together get less
      than the global share and a rounding error of 2^-20 for each. */
  lemma NobodyOversold(s: State, pick: set<nat>)
    requires Inv(s) && Antichain(s.tree, pick)
    ensures Picked(s.tree, pick) <= Limit(s.global)
    ensures Timed(s.tree)
    ensures var m := Count(s.tree, pick);
            m > 0 ==> Shares(s.tree, pick) < (Limit(s.global) + m) as real / ONE as real
                                          <= Share(Group(0, GlobalPeriod(s.global), GlobalRuntime(s.global)))
                                             + m as real / ONE as real
  {
    AntichainBound(s.tree, Limit(s.global), pick);
    FitsTimed(s.tree, Limit(s.global));
    SharesNearRatios(s.tree, pick);
    RatioTruncates(Group(0, GlobalPeriod(s.global), GlobalRuntime(s.global)));
  }

  /** The group with this id. */
  function Find(t: Tree<Group>, id: nat): Option<Group> {
    if t.n.id == id then Some(t.n) else FindIn(t.kids, id)
  }

  function FindIn(ts: seq<Tree<Group>>, id: nat): Option<Group> {
    if ts == [] then None
    else
      var r := Find(ts[0], id);
      if r.Some? then r else FindIn(ts[1..], id)
  }

  lemma {:induction false} FoundTimed(t: Tree<Group>, limit: nat, id: nat)
    requires Fits(t, limit)
    ensures Find(t, id).Some? ==> Find(t, id).value.period > 0
  {
    FoundTimedIn(t.kids, limit, id);
  }

  lemma {:induction false} FoundTimedIn(ts: seq<Tree<Group>>, limit: nat, id: nat)
    requires forall i :: 0 <= i < |ts| ==> Fits(ts[i], limit)
    ensures FindIn(ts, id).Some? ==> FindIn(ts, id).value.period > 0
  {
    if ts != [] {
      FoundTimed(ts[0], limit, id);
      FoundTimedIn(ts[1..], limit, id);
    }
  }

  /** list_add_rcu(&tg->siblings, &parent->children). */
  function AddLeaf(t: Tree<Group>, parent: nat, x: Group): Tree<Group> {
    var kids := AddLeafIn(t.kids, parent, x);
    Node(t.n, if t.n.id == parent then [Node(x, [])] + kids else kids)
  }

  function AddLeafIn(ts: seq<Tree<Group>>, parent: nat, x: Group): seq<Tree<Group>> {
    if ts == [] then [] else AddLeafIn(ts[..|ts| - 1], parent, x) + [AddLeaf(ts[|ts| - 1], parent, x)]
  }

  /** list_del_rcu(&tg->siblings), for a group without children. */
  function RemoveLeaf(t: Tree<Group>, id: nat): Tree<Group> {
    Node(t.n, RemoveLeafIn(t.kids, id))
  }

  function RemoveLeafIn(ts: seq<Tree<Group>>, id: nat): seq<Tree<Group>> {
    if ts == [] then []
    else
      var x := ts[|ts| - 1];
      RemoveLeafIn(ts[..|ts| - 1], id) + if x.n.id == id && x.kids == [] then [] else [RemoveLeaf(x, id)]
  }

  /** tg_set_rt_bandwidth. */
  function SetBandwidth(s: State, d: Change, busy: set<nat>): (State, int) {
    var err := RtSchedulable(s.tree, d, s.global, busy);
    if err != 0 then (s, err) else (s.(tree := Apply(s.tree, d)), 0)
  }

  /** The new state and the error code. */
  function Step(s: State, c: Cmd): (State, int) {
    match c
    case SetRuntime(id, us, busy) =>
      var x := Find(s.tree, id);
      if x.None? then (s, 0)
      else
        var runtime := if us < 0 then RUNTIME_INF else U64(us * NSEC_PER_USEC);
        SetBandwidth(s, Change(Some(id), x.value.period, runtime), busy)
    case SetPeriod(id, us, busy) =>
      var x, period := Find(s.tree, id), U64(us * NSEC_PER_USEC);
      if x.None? then (s, 0)
      else if period == 0 then (s, -EINVAL)
      else SetBandwidth(s, Change(Some(id), period, x.value.runtime), busy)
    case Create(parent, id) => (s.(tree := AddLeaf(s.tree, parent, Group(id, s.defPeriod, 0))), 0)
    case Destroy(id) => (s.(tree := RemoveLeaf(s.tree, id)), 0)
    case Sysctl(periodUs, runtimeUs, busy) =>
      var global := Global(AsUnsigned(periodUs), runtimeUs);
      if global.periodUs <= 0 then (s, -EINVAL)
      else if GlobalRuntime(global) > GlobalPeriod(global) && GlobalRuntime(global) != RUNTIME_INF then (s, -EINVAL)
      else
        var ret := RtSchedulable(s.tree, NO_CHANGE, global, busy);
        if ret != 0 then (s, ret) else (State(s.tree, global, GlobalPeriod(global)), 0)
  }

  function Run(s: State, cs: seq<Cmd>): State {
    if cs == [] then s else Step(Run(s, cs[..|cs| - 1]), cs[|cs| - 1]).0
  }

  lemma {:induction false} FittingFits(t: Tree<Group>, g: Global, busy: set<nat>)
    requires AllFit(t, g, busy) && Timed(t)
    ensures Fits(t, Limit(g))
  {
    forall i | 0 <= i < |t.kids| ensures Fits(t.kids[i], Limit(g)) {
      FittingFits(t.kids[i], g, busy);
    }
  }

  lemma {:induction false} ApplyTimed(t: Tree<Group>, d: Change)
    requires Timed(t) && (d.tg.Some? ==> d.period > 0)
    ensures Timed(Apply(t, d))
  {
    forall i | 0 <= i < |t.kids| ensures Timed(Apply(t, d).kids[i]) {
      ApplyTimed(t.kids[i], d);
    }
  }

  lemma {:induction false} ApplyNothing(t: Tree<Group>)
    ensures Apply(t, NO_CHANGE) == t
  {
    forall i | 0 <= i < |t.kids| ensures ApplyAll(t.kids, NO_CHANGE)[i] == t.kids[i] {
      ApplyNothing(t.kids[i]);
    }
    assert ApplyAll(t.kids, NO_CHANGE) == t.kids;
  }

  lemma {:induction false} AddLeafFits(t: Tree<Group>, limit: nat, parent: nat, x: Group)
    requires Fits(t, limit) && x.period > 0 && x.runtime == 0
    ensures Fits(AddLeaf(t, parent, x), limit)
  {
    AddLeafInFits(t.kids, limit, parent, x);
    var kids := AddLeafIn(t.kids, parent, x);
    PrependIdle(Node(x, []), kids);
    assert Fits(Node(x, []), limit);
    hide AddLeafIn;
    hide SumRatios;
    hide Ratio;
    var all := [Node(x, [])] + kids;
    assert forall i :: 0 < i < |all| ==> all[i] == kids[i - 1];
  }

  lemma {:induction false} AddLeafInFits(ts: seq<Tree<Group>>, limit: nat, parent: nat, x: Group)
    requires (forall i :: 0 <= i < |ts| ==> Fits(ts[i], limit)) && x.period > 0 && x.runtime == 0
    ensures SumRatios(AddLeafIn(ts, parent, x)) == SumRatios(ts)
    ensures forall r :: r in AddLeafIn(ts, parent, x) ==> Fits(r, limit)
  {
    if ts != [] {
      AddLeafInFits(ts[..|ts| - 1], limit, parent, x);
      AddLeafFits(ts[|ts| - 1], limit, parent, x);
      var a, b := AddLeafIn(ts[..|ts| - 1], parent, x), AddLeaf(ts[|ts| - 1], parent, x);
      assert (a + [b])[..|a|] == a;
    }
  }

  lemma {:induction false} PrependIdle(x: Tree<Group>, ts: seq<Tree<Group>>)
    requires Ratio(x.n) == 0
    ensures SumRatios([x] + ts) == SumRatios(ts)
  {
    if ts == [] {
      assert ([x] + ts)[..0] == [] && SumRatios([]) == 0;
      assert SumRatios([x] + ts) == SumRatios(([x] + ts)[..0]) + Ratio(x.n);
    } else {
      PrependIdle(x, ts[..|ts| - 1]);
      assert ([x] + ts)[..|ts|] == [x] + ts[..|ts| - 1];
    }
  }

  lemma {:induction false} RemoveLeafFits(t: Tree<Group>, limit: nat, id: nat)
    requires Fits(t, limit)
    ensures Fits(RemoveLeaf(t, id), limit)
  {
    RemoveLeafInFits(t.kids, limit, id);
  }

  lemma {:induction false} RemoveLeafInFits(ts: seq<Tree<Group>>, limit: nat, id: nat)
    requires forall i :: 0 <= i < |ts| ==> Fits(ts[i], limit)
    ensures SumRatios(RemoveLeafIn(ts, id)) <= SumRatios(ts)
    ensures forall r :: r in RemoveLeafIn(ts, id) ==> Fits(r, limit)
  {
    if ts != [] {
      RemoveLeafInFits(ts[..|ts| - 1], limit, id);
      RemoveLeafFits(ts[|ts| - 1], limit, id);
      var a, b := RemoveLeafIn(ts[..|ts| - 1], id), RemoveLeaf(ts[|ts| - 1], id);
      assert (a + [b])[..|a|] == a && a + [] == a;
    }
  }

  lemma SetBandwidthKeeps(s: State, d: Change, busy: set<nat>)
    requires Inv(s) && (d.tg.Some? ==> d.period > 0)
    ensures Inv(SetBandwidth(s, d, busy).0)
  {
    PassesIffAllFit(s.tree, d, s.global, busy);
    FitsTimed(s.tree, Limit(s.global));
    ApplyTimed(s.tree, d);
    if AllFit(Apply(s.tree, d), s.global, busy) {
      FittingFits(Apply(s.tree, d), s.global, busy);
    }
  }

  lemma SetRuntimeKeeps(s: State, id: nat, us: int, busy: set<nat>)
    requires Inv(s)
    ensures Inv(Step(s, SetRuntime(id, us, busy)).0)
  {
    FoundTimed(s.tree, Limit(s.global), id);
    if Find(s.tree, id).Some? {
      var runtime := if us < 0 then RUNTIME_INF else U64(us * NSEC_PER_USEC);
      SetBandwidthKeeps(s, Change(Some(id), Find(s.tree, id).value.period, runtime), busy);
    }
  }

  lemma SetPeriodKeeps(s: State, id: nat, us: int, busy: set<nat>)
    requires Inv(s)
    ensures Inv(Step(s, SetPeriod(id, us, busy)).0)
  {
    var period := U64(us * NSEC_PER_USEC);
    if Find(s.tree, id).Some? && period > 0 {
      SetBandwidthKeeps(s, Change(Some(id), period, Find(s.tree, id).value.runtime), busy);
    }
  }

  lemma NewLimitFits(s: State, global: Global, busy: set<nat>)
    requires Inv(s) && Sane(global) && RtSchedulable(s.tree, NO_CHANGE, global, busy) == 0
    ensures Inv(State(s.tree, global, GlobalPeriod(global)))
  {
    PassesIffAllFit(s.tree, NO_CHANGE, global, busy);
    ApplyNothing(s.tree);
    FitsTimed(s.tree, Limit(s.global));
    FittingFits(s.tree, global, busy);
  }

  /** The handler's walk judges the groups as they are, by the new limit. */
  lemma SysctlKeeps(s: State, periodUs: Int32, runtimeUs: Int32, busy: set<nat>)
    requires Inv(s)
    ensures Inv(Step(s, Sysctl(periodUs, runtimeUs, busy)).0)
  {
    var global := Global(AsUnsigned(periodUs), runtimeUs);
    if Sane(global) && RtSchedulable(s.tree, NO_CHANGE, global, busy) == 0 {
      NewLimitFits(s, global, busy);
    }
  }

  lemma StepKeeps(s: State, c: Cmd)
    requires Inv(s)
    ensures Inv(Step(s, c).0)
  {
    match c {
      case SetRuntime(id, us, busy) => SetRuntimeKeeps(s, id, us, busy);
      case SetPeriod(id, us, busy) => SetPeriodKeeps(s, id, us, busy);
      case Create(parent, id) => AddLeafFits(s.tree, Limit(s.global), parent, Group(id, s.defPeriod, 0));
      case Destroy(id) => RemoveLeafFits(s.tree, Limit(s.global), id);
      case Sysctl(periodUs, runtimeUs, busy) => SysctlKeeps(s, periodUs, runtimeUs, busy);
    }
  }

  /** ... and every sequence of requests, granted or not, leads to such a state. */
  lemma {:induction false} RunKeeps(s: State, cs: seq<Cmd>)
    requires Inv(s)
    ensures Inv(Run(s, cs))
  {
    if cs != [] {
      RunKeeps(s, cs[..|cs| - 1]);
      StepKeeps(Run(s, cs[..|cs| - 1]), cs[|cs| - 1]);
    }
  }

  /** sched_init: the root group, which has all that sysctl allows. */
  function Boot(root: nat, g: Global): State {
    State(Node(Group(root, GlobalPeriod(g), GlobalRuntime(g)), []), g, GlobalPeriod(g))
  }

  lemma {:induction false} NeverOversold(root: nat, g: Global, cs: seq<Cmd>, pick: set<nat>)
    requires Sane(g) && Antichain(Run(Boot(root, g), cs).tree, pick)
    ensures var s := Run(Boot(root, g), cs);
            && Picked(s.tree, pick) <= Limit(s.global)
            && Timed(s.tree)
            && (Count(s.tree, pick) > 0 ==>
                  Shares(s.tree, pick) < (Limit(s.global) + Count(s.tree, pick)) as real / ONE as real)
  {
    assert Inv(Boot(root, g));
    RunKeeps(Boot(root, g), cs);
    NobodyOversold(Run(Boot(root, g), cs), pick);
  }

  /** A group's settings really become what was asked for, and no other group's change. */
  lemma {:induction false} ApplyFinds(t: Tree<Group>, d: Change, id: nat)
    ensures Find(Apply(t, d), id)
         == match Find(t, id) case None => None case Some(x) => Some(Changed(x, d))
  {
    ApplyFindsIn(t.kids, d, id);
  }

  lemma {:induction false} FoundId(t: Tree<Group>, id: nat)
    ensures Find(t, id).Some? ==> Find(t, id).value.id == id
  {
    FoundIdIn(t.kids, id);
  }

  lemma {:induction false} FoundIdIn(ts: seq<Tree<Group>>, id: nat)
    ensures FindIn(ts, id).Some? ==> FindIn(ts, id).value.id == id
  {
    if ts != [] {
      FoundId(ts[0], id);
      FoundIdIn(ts[1..], id);
    }
  }

  lemma {:induction false} ApplyFindsIn(ts: seq<Tree<Group>>, d: Change, id: nat)
    ensures FindIn(ApplyAll(ts, d), id)
         == match FindIn(ts, id) case None => None case Some(x) => Some(Changed(x, d))
  {
    if ts != [] {
      ApplyFinds(ts[0], d, id);
      ApplyFindsIn(ts[1..], d, id);
      assert ApplyAll(ts, d)[1..] == ApplyAll(ts[1..], d);
    }
  }

  lemma {:induction false} AddLeafInAt(ts: seq<Tree<Group>>, parent: nat, x: Group)
    ensures |AddLeafIn(ts, parent, x)| == |ts|
    ensures forall i :: 0 <= i < |ts| ==> AddLeafIn(ts, parent, x)[i] == AddLeaf(ts[i], parent, x)
  {
    if ts != [] {
      AddLeafInAt(ts[..|ts| - 1], parent, x);
    }
  }

  /** A new group is there, below a parent that is, and no other group changes. */
  lemma {:induction false} AddLeafFinds(t: Tree<Group>, parent: nat, x: Group, id: nat)
    requires Find(t, x.id).None?
    ensures Find(AddLeaf(t, parent, x), id)
         == if id != x.id then Find(t, id) else if Find(t, parent).Some? then Some(x) else None
  {
    AddLeafInFinds(t.kids, parent, x, id);
    var kids := AddLeafIn(t.kids, parent, x);
    var more := [Node(x, [])] + kids;
    assert more[0] == Node(x, []) && more[1..] == kids && Find(more[0], id) == if id == x.id then Some(x) else None;
    assert FindIn(more, id) == if id == x.id then Some(x) else FindIn(kids, id);
  }

  lemma {:induction false} AddLeafInFinds(ts: seq<Tree<Group>>, parent: nat, x: Group, id: nat)
    requires FindIn(ts, x.id).None?
    ensures FindIn(AddLeafIn(ts, parent, x), id)
         == if id != x.id then FindIn(ts, id) else if FindIn(ts, parent).Some? then Some(x) else None
  {
    if ts != [] {
      AddLeafFinds(ts[0], parent, x, id);
      AddLeafInFinds(ts[1..], parent, x, id);
      AddLeafInAt(ts, parent, x);
      AddLeafInAt(ts[1..], parent, x);
      assert AddLeafIn(ts, parent, x)[1..] == AddLeafIn(ts[1..], parent, x);
    }
  }

  /** Unless real-time time is unlimited, no group with real-time tasks is left without runtime by a change that
      passes. */
  lemma NobodyStarved(s: State, d: Change, busy: set<nat>, id: nat)
    requires SetBandwidth(s, d, busy).1 == 0 && s.global.runtimeUs >= 0 && id in busy
    ensures var x := Find(SetBandwidth(s, d, busy).0.tree, id); x.Some? ==> x.value.id == id && x.value.runtime > 0
  {
    PassesIffAllFit(s.tree, d, s.global, busy);
    FoundFed(Apply(s.tree, d), s.global, busy, id);
  }

  lemma {:induction false} FoundFed(t: Tree<Group>, g: Global, busy: set<nat>, id: nat)
    requires AllFit(t, g, busy) && g.runtimeUs >= 0 && id in busy
    ensures Find(t, id).Some? ==> Find(t, id).value.id == id && Find(t, id).value.runtime > 0
  {
    FoundFedIn(t.kids, g, busy, id);
  }

  lemma {:induction false} FoundFedIn(ts: seq<Tree<Group>>, g: Global, busy: set<nat>, id: nat)
    requires (forall i :: 0 <= i < |ts| ==> AllFit(ts[i], g, busy)) && g.runtimeUs >= 0 && id in busy
    ensures FindIn(ts, id).Some? ==> FindIn(ts, id).value.id == id && FindIn(ts, id).value.runtime > 0
  {
    if ts != [] {
      FoundFed(ts[0], g, busy, id);
      FoundFedIn(ts[1..], g, busy, id);
    }
  }

  // ---------------------------------------------------------------- the variables themselves

  /** A group with new settings, if there is one. */
  function Renewed(x: Option<Group>, id: nat, period: nat, runtime: nat): Option<Group> {
    if x.None? then None else Some(Group(id, period, runtime))
  }

  /** The group tree and the sysctl variables. */
  class Groups {
    var tree: Tree<Group>
    var sysctlPeriod: UInt32
    var sysctlRuntime: Int32
    var defPeriod: nat         // def_rt_bandwidth.rt_period

    function Abs(): State
      reads this
    {
      State(tree, Global(sysctlPeriod, sysctlRuntime), defPeriod)
    }

    method TgSetRtBandwidth(id: nat, period: nat, runtime: nat, busy: set<nat>) returns (err: int)
      modifies this`tree
      ensures (Abs(), err) == SetBandwidth(old(Abs()), Change(Some(id), period, runtime), busy)
      ensures err != 0 ==> tree == old(tree)
      ensures err == 0 ==>
                forall x :: Find(tree, x) == if x == id then Renewed(Find(old(tree), x), id, period, runtime)
                                             else Find(old(tree), x)
    {
      var d := Change(Some(id), period, runtime);
      err := RtSchedulable(tree, d, Global(sysctlPeriod, sysctlRuntime), busy);
      if err == 0 {
        forall x ensures Find(Apply(tree, d), x) == if x == id then Renewed(Find(tree, x), id, period, runtime)
                                                    else Find(tree, x)
        {
          ApplyFinds(tree, d, x);
          FoundId(tree, x);
        }
        tree := Apply(tree, d);
      }
    }

    method SetRtRuntime(id: nat, us: int, busy: set<nat>) returns (err: int)
      requires Find(tree, id).Some?
      modifies this`tree
      ensures (Abs(), err) == Step(old(Abs()), SetRuntime(id, us, busy))
      ensures err == 0 ==> Find(tree, id) == Some(Group(id, old(Find(tree, id)).value.period,
                                                        if us < 0 then RUNTIME_INF else U64(us * 1000)))
    {
      var period := Find(tree, id).value.period;
      var runtime := U64(us * NSEC_PER_USEC);
      if us < 0 {
        runtime := RUNTIME_INF;
      }
      err := TgSetRtBandwidth(id, period, runtime, busy);
    }

    method SetRtPeriod(id: nat, us: int, busy: set<nat>) returns (err: int)
      requires Find(tree, id).Some?
      modifies this`tree
      ensures (Abs(), err) == Step(old(Abs()), SetPeriod(id, us, busy))
      ensures err == 0 ==> U64(us * 1000) > 0
                           && Find(tree, id) == Some(Group(id, U64(us * 1000), old(Find(tree, id)).value.runtime))
    {
      var period := U64(us * NSEC_PER_USEC);
      var runtime := Find(tree, id).value.runtime;
      if period == 0 {
        return -EINVAL;
      }
      err := TgSetRtBandwidth(id, period, runtime, busy);
    }

    /** sched_rt_handler, as one step: write, check, and take the new values back if they do not pass. */
    method SchedRtHandler(periodUs: Int32, runtimeUs: Int32, busy: set<nat>) returns (ret: int)
      modifies this`sysctlPeriod, this`sysctlRuntime, this`defPeriod
      ensures (Abs(), ret) == Step(old(Abs()), Sysctl(periodUs, runtimeUs, busy))
      ensures ret != 0 ==> sysctlPeriod == old(sysctlPeriod) && sysctlRuntime == old(sysctlRuntime)
                           && defPeriod == old(defPeriod)
      ensures ret == 0 ==> sysctlPeriod == AsUnsigned(periodUs) && sysctlRuntime == runtimeUs && sysctlPeriod > 0
                           && (runtimeUs < 0 || runtimeUs <= sysctlPeriod) && defPeriod == sysctlPeriod * 1000
    {
      var oldPeriod, oldRuntime: Int32 := AsSigned(sysctlPeriod), sysctlRuntime;
      assert AsUnsigned(oldPeriod) == sysctlPeriod;
      sysctlPeriod, sysctlRuntime := AsUnsigned(periodUs), runtimeUs;
      ret := SchedRtGlobalConstraints(busy);
      if ret != 0 {
        sysctlPeriod, sysctlRuntime := AsUnsigned(oldPeriod), oldRuntime;
      } else {
        defPeriod := GlobalPeriod(Global(sysctlPeriod, sysctlRuntime));
      }
    }

    /** sched_rt_global_constraints: of the unsigned period, `<= 0` refuses zero only. */
    method SchedRtGlobalConstraints(busy: set<nat>) returns (ret: int)
      ensures ret == if sysctlPeriod <= 0 || !Sane(Abs().global) then -EINVAL
                     else RtSchedulable(tree, NO_CHANGE, Abs().global, busy)
    {
      var g := Global(sysctlPeriod, sysctlRuntime);
      if sysctlPeriod <= 0 {
        return -EINVAL;
      }
      if GlobalRuntime(g) > GlobalPeriod(g) && GlobalRuntime(g) != RUNTIME_INF {
        return -EINVAL;
      }
      ret := RtSchedulable(tree, NO_CHANGE, g, busy);
    }
  }
}
