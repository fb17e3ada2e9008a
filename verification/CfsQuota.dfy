/** Admission of CFS bandwidth quotas: every group learns the tightest quota above it. */
module CfsQuota {
  import opened Kernel
  import opened TreeWalk

  /** RUNTIME_INF read as the signed word hierarchal_quota is. */
  const UNLIMITED: int := -1

  /** A group, with its bandwidth settings in nanoseconds; no quota means no limit. */
  datatype Group = Group(id: nat, parent: Option<nat>, period: nat, quota: Option<nat>)

  /** struct cfs_schedulable_data: the group to be changed and its new settings, in microseconds. */
  datatype Want = Want(tg: nat, period: nat, quota: Option<nat>)

  /** What the visitors work on: the request, and the hierarchal_quota of every group. */
  datatype Data = Data(want: Want, hq: map<nat, int>)

  /** normalize_cfs_quota. */
  function Normalize(x: Group, w: Want): int {
    var period, quota :=
      if x.id == w.tg then w.period else x.period / NSEC_PER_USEC,
      if x.id == w.tg then w.quota else if x.quota.None? then None else Some(x.quota.value / NSEC_PER_USEC);
    if quota.None? then UNLIMITED else ToRatio(period, quota.value)
  }

  /** tg_cfs_schedulable_down. */
  function DownStep(x: Group, d: Data): (int, Data) {
    if x.parent.None? then (0, d.(hq := d.hq[x.id := UNLIMITED]))
    else
      var quota := Normalize(x, d.want);
      var parentQuota := if x.parent.value in d.hq then d.hq[x.parent.value] else 0;
      if quota == UNLIMITED then (0, d.(hq := d.hq[x.id := parentQuota]))
      else if parentQuota != UNLIMITED && quota > parentQuota then (-EINVAL, d)
      else (0, d.(hq := d.hq[x.id := quota]))
  }

  /** The fields of struct task_group the walk works on. */
  class CfsGroup {
    const id: nat
    const parent: CfsGroup?
    var period: nat
    var quota: Option<nat>
    var hierarchalQuota: int

    constructor (id: nat, parent: CfsGroup?, period: nat, quota: Option<nat>)
      ensures this.parent == parent
      ensures Abs() == Group(id, if parent == null then None else Some(parent.id), period, quota)
    {
      this.id, this.parent, this.period, this.quota, hierarchalQuota := id, parent, period, quota, UNLIMITED;
    }

    function Abs(): Group
      reads this
    {
      Group(id, if parent == null then None else Some(parent.id), period, quota)
    }

    /** tg_cfs_schedulable_down, on the group itself; `hq` are the stored quotas of all groups. */
    method SchedulableDown(want: Want, ghost hq: map<nat, int>) returns (ret: int)
      requires parent != null ==> parent.id in hq && hq[parent.id] == parent.hierarchalQuota
      requires id in hq && hq[id] == hierarchalQuota
      modifies this`hierarchalQuota
      ensures (ret, Data(want, hq[id := hierarchalQuota])) == DownStep(Abs(), Data(want, hq))
    {
      assert hq[id := hierarchalQuota] == hq;
      var quota := 0;
      if parent == null {
        quota := UNLIMITED;
      } else {
        quota := Normalize(Abs(), want);
        var parentQuota := parent.hierarchalQuota;
        if quota == UNLIMITED {
          quota := parentQuota;
        } else if parentQuota != UNLIMITED && quota > parentQuota {
          return -EINVAL;
        }
      }
      hierarchalQuota := quota;
      return 0;
    }
  }

  function DownVisitor(): Visitor<Tree<Group>, Data> {
    (t: Tree<Group>, d: Data) => DownStep(t.n, d)
  }

  /** tg_nop. */
  function Nop(): Visitor<Tree<Group>, Data> {
    (t: Tree<Group>, d: Data) => (0, d)
  }

  function Wanted(tg: nat, period: nat, quota: Option<nat>): Want {
    if quota.None? then Want(tg, period, None)
    else Want(tg, period / NSEC_PER_USEC, Some(quota.value / NSEC_PER_USEC))
  }

  /** __cfs_schedulable: may group `tg` have these settings, given in nanoseconds? */
  function CfsSchedulable(t: Tree<Group>, tg: nat, period: nat, quota: Option<nat>, hq: map<nat, int>):
    (int, map<nat, int>)
  {
    var (ret, d) := Visit(t, DownVisitor(), Nop(), Data(Wanted(tg, period, quota), hq));
    (ret, d.hq)
  }

  // ---------------------------------------------------------------- what the walk works out

  function Ids(t: Tree<Group>): set<nat> {
    {t.n.id} + IdsIn(t.kids)
  }

  function IdsIn(ts: seq<Tree<Group>>): set<nat> {
    if ts == [] then {} else Ids(ts[0]) + IdsIn(ts[1..])
  }

  /** Every group knows its parent, and no two groups are the same. */
  ghost predicate Linked(t: Tree<Group>) {
    && t.n.id !in IdsIn(t.kids)
    && forall i :: 0 <= i < |t.kids| ==>
         && Linked(t.kids[i]) && t.kids[i].n.parent == Some(t.n.id)
         && t.n.id !in Ids(t.kids[i])
         && forall j :: 0 <= j < i ==> Ids(t.kids[i]) !! Ids(t.kids[j])
  }

  /** A group's own limit, or else the limit above it. */
  function Limit(x: Group, above: int, w: Want): int {
    if x.parent.None? || Normalize(x, w) == UNLIMITED then above else Normalize(x, w)
  }

  /** No group's own limit is above the limit over it.  Stored quotas play no part. */
  ghost predicate Fine(t: Tree<Group>, above: int, w: Want)
    decreases t, |t.kids| + 1
  {
    && (t.n.parent.None? || above == UNLIMITED || Normalize(t.n, w) <= above)
    && FineFrom(t, 0, above, w)
  }

  ghost predicate FineFrom(t: Tree<Group>, done: nat, above: int, w: Want)
    requires done <= |t.kids|
    decreases t, |t.kids| - done
  {
    done < |t.kids| ==> Fine(t.kids[done], Limit(t.n, above, w), w) && FineFrom(t, done + 1, above, w)
  }

  /** Every group has its limit written down. */
  ghost predicate Settled(t: Tree<Group>, above: int, w: Want, hq: map<nat, int>)
    decreases t, |t.kids| + 1
  {
    && t.n.id in hq && hq[t.n.id] == Limit(t.n, above, w)
    && SettledUpTo(t, |t.kids|, above, w, hq)
  }

  ghost predicate SettledUpTo(t: Tree<Group>, done: nat, above: int, w: Want, hq: map<nat, int>)
    requires done <= |t.kids|
    decreases t, done
  {
    forall i :: 0 <= i < done ==> Settled(t.kids[i], Limit(t.n, above, w), w, hq)
  }

  ghost predicate SameOutside(a: map<nat, int>, b: map<nat, int>, ids: set<nat>) {
    forall x :: x in a && x !in ids ==> x in b && b[x] == a[x]
  }

  lemma {:induction false} KidIds(ts: seq<Tree<Group>>, i: nat)
    requires i < |ts|
    ensures Ids(ts[i]) <= IdsIn(ts)
  {
    if i > 0 {
      KidIds(ts[1..], i - 1);
    }
  }

  lemma {:induction false} SettledFrame(t: Tree<Group>, above: int, w: Want, a: map<nat, int>, b: map<nat, int>,
                                        ids: set<nat>)
    requires Settled(t, above, w, a) && SameOutside(a, b, ids) && Ids(t) !! ids
    ensures Settled(t, above, w, b)
  {
    forall i | 0 <= i < |t.kids| ensures Settled(t.kids[i], Limit(t.n, above, w), w, b) {
      KidIds(t.kids, i);
      SettledFrame(t.kids[i], Limit(t.n, above, w), w, a, b, ids);
    }
  }

  ghost predicate AboveIs(t: Tree<Group>, above: int, hq: map<nat, int>) {
    if t.n.parent.None? then above == UNLIMITED
    else t.n.parent.value in hq && hq[t.n.parent.value] == above && t.n.parent.value !in Ids(t)
  }

  /** The walk of a subtree, once its parent's limit is known. */
  lemma {:induction false} VisitSettles(t: Tree<Group>, above: int, d: Data)
    requires Linked(t) && AboveIs(t, above, d.hq) && above >= UNLIMITED
    ensures var (ret, r) := Visit(t, DownVisitor(), Nop(), d);
            && ret == (if Fine(t, above, d.want) then 0 else -EINVAL)
            && r.want == d.want && SameOutside(d.hq, r.hq, Ids(t))
            && (ret == 0 ==> Settled(t, above, d.want, r.hq))
    decreases t, |t.kids| + 1
  {
    var (ret, d1) := DownStep(t.n, d);
    if ret == 0 {
      assert d1 == d.(hq := d.hq[t.n.id := Limit(t.n, above, d.want)]);
      LeaveSettles(t, 0, above, d1);
    }
  }

  lemma {:induction false} LeaveSettles(t: Tree<Group>, done: nat, above: int, d: Data)
    requires Linked(t) && done <= |t.kids| && above >= UNLIMITED
    requires t.n.id in d.hq && d.hq[t.n.id] == Limit(t.n, above, d.want) && SettledUpTo(t, done, above, d.want, d.hq)
    ensures var (ret, r) := Leave(t, done, DownVisitor(), Nop(), d);
            && ret == (if FineFrom(t, done, above, d.want) then 0 else -EINVAL)
            && r.want == d.want && SameOutside(d.hq, r.hq, Ids(t))
            && (ret == 0 ==> Settled(t, above, d.want, r.hq))
    decreases t, |t.kids| - done
  {
    if done < |t.kids| {
      var kid, limit := t.kids[done], Limit(t.n, above, d.want);
      VisitSettles(kid, limit, d);
      KidIds(t.kids, done);
      var (ret, d1) := Visit(kid, DownVisitor(), Nop(), d);
      if ret == 0 {
        forall i | 0 <= i < done + 1 ensures Settled(t.kids[i], limit, d.want, d1.hq) {
          if i < done {
            SettledFrame(t.kids[i], limit, d.want, d.hq, d1.hq, Ids(kid));
          }
        }
        LeaveSettles(t, done + 1, above, d1);
      }
    }
  }

  // ---------------------------------------------------------------- every group, by its path from the root

  ghost predicate PathOk(t: Tree<Group>, p: seq<nat>)
    decreases p, 0
  {
    p == [] || (PathOk(t, p[..|p| - 1]) && p[|p| - 1] < |At(t, p[..|p| - 1]).kids|)
  }

  /** The subtree reached by taking the p[0]-th child of the root, then its p[1]-th child, and so on. */
  ghost function At(t: Tree<Group>, p: seq<nat>): Tree<Group>
    requires PathOk(t, p)
    decreases p, 1
  {
    if p == [] then t else At(t, p[..|p| - 1]).kids[p[|p| - 1]]
  }

  /** The normalised quota of the nearest group on the way up that has one, the root excepted. */
  ghost function Nearest(t: Tree<Group>, p: seq<nat>, w: Want): int
    requires PathOk(t, p)
  {
    if p == [] then UNLIMITED
    else if Normalize(At(t, p).n, w) != UNLIMITED then Normalize(At(t, p).n, w)
    else Nearest(t, p[..|p| - 1], w)
  }

  lemma {:induction false} AtPath(t: Tree<Group>, p: seq<nat>, w: Want, hq: map<nat, int>)
    requires Linked(t) && t.n.parent.None? && PathOk(t, p) && Settled(t, UNLIMITED, w, hq) && Fine(t, UNLIMITED, w)
    ensures Linked(At(t, p)) && (p == [] <==> At(t, p).n.parent.None?)
    ensures var above := if p == [] then UNLIMITED else Nearest(t, p[..|p| - 1], w);
            && Settled(At(t, p), above, w, hq) && Fine(At(t, p), above, w)
            && hq[At(t, p).n.id] == Nearest(t, p, w)
  {
    if p != [] {
      var up := p[..|p| - 1];
      AtPath(t, up, w, hq);
      FineKid(At(t, up), 0, p[|p| - 1], if up == [] then UNLIMITED else Nearest(t, up[..|up| - 1], w), w);
    }
  }

  lemma {:induction false} FineKid(t: Tree<Group>, done: nat, i: nat, above: int, w: Want)
    requires done <= i < |t.kids| && FineFrom(t, done, above, w)
    ensures Fine(t.kids[i], Limit(t.n, above, w), w)
    decreases i - done
  {
    if done < i {
      FineKid(t, done + 1, i, above, w);
    }
  }

  /** What a caller gets from __cfs_schedulable: whatever earlier, possibly rejected, walks left behind,
      the verdict is that of the settings alone; and when it is yes, every group's hierarchal_quota is the
      quota of the nearest group with one, and never larger than its parent's. */
  lemma {:induction false} QuotasSettled(t: Tree<Group>, tg: nat, period: nat, quota: Option<nat>,
                                         hq: map<nat, int>, other: map<nat, int>)
    requires Linked(t) && t.n.parent.None?
    ensures CfsSchedulable(t, tg, period, quota, hq).0 == CfsSchedulable(t, tg, period, quota, other).0
    ensures var (ret, r) := CfsSchedulable(t, tg, period, quota, hq);
            var w := Wanted(tg, period, quota);
            && ret == (if Fine(t, UNLIMITED, w) then 0 else -EINVAL)
            && (ret == 0 ==> forall p :: PathOk(t, p) ==>
                  && At(t, p).n.id in r && r[At(t, p).n.id] == Nearest(t, p, w)
                  && (p == [] || Narrower(Nearest(t, p, w), Nearest(t, p[..|p| - 1], w))))
  {
    var w := Wanted(tg, period, quota);
    VisitSettles(t, UNLIMITED, Data(w, hq));
    VisitSettles(t, UNLIMITED, Data(w, other));
    var (ret, r) := CfsSchedulable(t, tg, period, quota, hq);
    if ret == 0 {
      forall p | PathOk(t, p)
        ensures && At(t, p).n.id in r && r[At(t, p).n.id] == Nearest(t, p, w)
                && (p == [] || Narrower(Nearest(t, p, w), Nearest(t, p[..|p| - 1], w)))
      {
        AtPath(t, p, w, r);
      }
    }
  }

  /** Whose settings these are: a limited group's quota is counted by its own settings, the changed group's by the
      settings asked for, both in microseconds; an unlimited one has its parent's, and the root has no limit. */
  lemma {:induction false} SettingsCount(t: Tree<Group>, tg: nat, period: nat, quota: Option<nat>, hq: map<nat, int>,
                                         p: seq<nat>)
    requires Linked(t) && t.n.parent.None? && PathOk(t, p) && CfsSchedulable(t, tg, period, quota, hq).0 == 0
    ensures var r, x := CfsSchedulable(t, tg, period, quota, hq).1, At(t, p).n;
            var own := if x.id == tg then quota else x.quota;
            && x.id in r
            && (p != [] && own.Some? ==>
                  r[x.id] == ToRatio((if x.id == tg then period else x.period) / 1000, own.value / 1000))
            && (p != [] && own.None? ==> At(t, p[..|p| - 1]).n.id in r && r[x.id] == r[At(t, p[..|p| - 1]).n.id])
            && (p == [] ==> r[x.id] == -1)
  {
    QuotasSettled(t, tg, period, quota, hq, hq);
    assert p != [] ==> PathOk(t, p[..|p| - 1]);
  }

  ghost predicate Narrower(quota: int, parentQuota: int) {
    parentQuota == UNLIMITED || UNLIMITED < quota <= parentQuota
  }
}
