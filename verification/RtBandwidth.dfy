/** How the CPUs of a root domain lend one another real-time runtime, and how a CPU that goes away takes
    back what it lent. */
module RtBandwidth {
  import opened Kernel

  // ---------------------------------------------------------------- runtimes

  /** The runtime of all enabled queues together; a disabled queue has infinite runtime. */
  function Total(r: seq<int>): int {
    if r == [] then 0 else Total(r[..|r| - 1]) + if r[|r| - 1] == RUNTIME_INF then 0 else r[|r| - 1]
  }

  function Enabled(r: seq<int>): nat {
    if r == [] then 0 else Enabled(r[..|r| - 1]) + if r[|r| - 1] == RUNTIME_INF then 0 else 1
  }

  ghost predicate NonNegative(r: seq<int>) {
    forall i :: 0 <= i < |r| ==> r[i] >= 0
  }

  lemma {:induction false} TotalUpdate(r: seq<int>, i: nat, v: int)
    requires i < |r|
    ensures Total(r[i := v]) == Total(r) - (if r[i] == RUNTIME_INF then 0 else r[i]) + if v == RUNTIME_INF then 0 else v
  {
    var n := |r| - 1;
    if i < n {
      TotalUpdate(r[..n], i, v);
      assert r[i := v][..n] == r[..n][i := v];
    } else {
      assert r[i := v][..n] == r[..n];
    }
  }

  lemma {:induction false} TotalNonNegative(r: seq<int>)
    requires NonNegative(r)
    ensures Total(r) >= 0 && Enabled(r) <= |r|
  {
    if r != [] {
      TotalNonNegative(r[..|r| - 1]);
    }
  }

  /** Two enabled queues have no more than all together. */
  lemma PairBound(r: seq<int>, i: nat, k: nat)
    requires i < |r| && k < |r| && i != k && NonNegative(r) && r[i] != RUNTIME_INF && r[k] != RUNTIME_INF
    ensures r[i] + r[k] <= Total(r)
  {
    TotalUpdate(r, i, 0);
    TotalUpdate(r[i := 0], k, 0);
    TotalNonNegative(r[i := 0][k := 0]);
  }

  /** How much more than one share of `b` each the enabled queues have. */
  function Excess(r: seq<int>, b: int): int {
    if r == [] then 0 else Excess(r[..|r| - 1], b) + if r[|r| - 1] == RUNTIME_INF then 0 else r[|r| - 1] - b
  }

  lemma {:induction false} ExcessUpdate(r: seq<int>, b: int, i: nat, v: int)
    requires i < |r|
    ensures Excess(r[i := v], b)
         == Excess(r, b) - (if r[i] == RUNTIME_INF then 0 else r[i] - b) + if v == RUNTIME_INF then 0 else v - b
    ensures Enabled(r[i := v])
         == Enabled(r) - (if r[i] == RUNTIME_INF then 0 else 1) + if v == RUNTIME_INF then 0 else 1
  {
    var n := |r| - 1;
    if i < n {
      ExcessUpdate(r[..n], b, i, v);
      assert r[i := v][..n] == r[..n][i := v];
    } else {
      assert r[i := v][..n] == r[..n];
    }
  }

  /** n shares of b. */
  ghost function Shares(n: nat, b: int): int {
    if n == 0 then 0 else Shares(n - 1, b) + b
  }

  lemma {:induction false} SharesIsProduct(n: nat, b: int)
    ensures Shares(n, b) == n * b
  {
    if n > 0 {
      SharesIsProduct(n - 1, b);
      assert (n - 1) * b + b == n * b;
    }
  }

  lemma {:induction false} SharesGrow(m: nat, n: nat, b: int)
    requires m <= n && b >= 0
    ensures 0 <= Shares(m, b) <= Shares(n, b) && (m > 0 ==> b <= Shares(m, b))
  {
    if m < n {
      SharesGrow(m, n - 1, b);
    } else if m > 0 {
      SharesGrow(m - 1, n - 1, b);
    }
  }

  lemma {:induction false} ExcessIsRest(r: seq<int>, b: int)
    ensures Total(r) == Shares(Enabled(r), b) + Excess(r, b)
  {
    if r != [] {
      ExcessIsRest(r[..|r| - 1], b);
    }
  }

  /** One more than the largest s64, the type of what is lent and of what is wanted back. */
  const SIGNED: int := 0x8000_0000_0000_0000

  /** n shares of b fit a signed word. */
  ghost predicate Fits(n: nat, b: int) {
    Shares(n, b) < SIGNED
  }

  /** No runtime is lost and none is made up: the enabled queues together have one share of `b` each. */
  ghost predicate Conserved(r: seq<int>, b: int) {
    && b >= 0 && NonNegative(r) && Excess(r, b) == 0
    && (if b == RUNTIME_INF then Enabled(r) == 0 else Fits(|r|, b))
  }

  lemma TotalFits(r: seq<int>, b: int)
    requires Conserved(r, b)
    ensures 0 <= Total(r) < SIGNED
  {
    TotalNonNegative(r);
    ExcessIsRest(r, b);
    if b != RUNTIME_INF {
      SharesGrow(Enabled(r), |r|, b);
    }
  }

  // ---------------------------------------------------------------- borrowing

  /** How much queue k takes from queue i, which has spare time. */
  function Loan(r: seq<int>, time: seq<int>, period: int, k: nat, i: nat): int
    requires k < |r| == |time| && i < |r|
  {
    var part := (r[i] - time[i]) / |r|;
    if r[k] + part > period then period - r[k] else part
  }

  ghost predicate Lends(r: seq<int>, time: seq<int>, k: nat, i: nat)
    requires k < |r| == |time| && i < |r|
  {
    i != k && r[i] != RUNTIME_INF && r[i] > time[i]
  }

  /** What do_balance_runtime makes of the runtimes, from queue i on. */
  ghost function Balanced(r: seq<int>, time: seq<int>, period: int, k: nat, i: nat): (s: seq<int>)
    requires k < |r| == |time| && i <= |r|
    ensures |s| == |r|
    decreases |r| - i
  {
    if i == |r| then r
    else if !Lends(r, time, k, i) then Balanced(r, time, period, k, i + 1)
    else
      var s := Moved(r, k, i, Loan(r, time, period, k, i));
      if s[k] == period then s else Balanced(s, time, period, k, i + 1)
  }

  lemma BalancedStep(r: seq<int>, time: seq<int>, period: int, k: nat, i: nat)
    requires k < |r| == |time| && i <= |r|
    ensures i == |r| ==> Balanced(r, time, period, k, i) == r
    ensures i < |r| && !Lends(r, time, k, i) ==> Balanced(r, time, period, k, i) == Balanced(r, time, period, k, i + 1)
    ensures i < |r| && Lends(r, time, k, i) ==>
              var s := Moved(r, k, i, Loan(r, time, period, k, i));
              Balanced(r, time, period, k, i) == if s[k] == period then s else Balanced(s, time, period, k, i + 1)
  {
  }

  ghost function Moved(r: seq<int>, k: nat, i: nat, diff: int): seq<int>
    requires k < |r| && i < |r| && i != k
  {
    r[i := r[i] - diff][k := r[k] + diff]
  }

  lemma MovedExcess(r: seq<int>, b: int, k: nat, i: nat, diff: int)
    requires k < |r| && i < |r| && i != k && r[i] != RUNTIME_INF && r[k] != RUNTIME_INF
    requires r[i] - diff != RUNTIME_INF && r[k] + diff != RUNTIME_INF
    ensures var s := Moved(r, k, i, diff); Excess(s, b) == Excess(r, b) && Enabled(s) == Enabled(r)
  {
    var x := r[i := r[i] - diff];
    ExcessUpdate(r, b, i, r[i] - diff);
    ExcessUpdate(x, b, k, r[k] + diff);
  }

  lemma {:induction false} MovedKeeps(r: seq<int>, b: int, k: nat, i: nat, diff: int)
    requires Conserved(r, b) && k < |r| && i < |r| && i != k
    requires r[i] != RUNTIME_INF && r[k] != RUNTIME_INF && -r[k] <= diff <= r[i]
    ensures Conserved(Moved(r, k, i, diff), b)
    ensures var s := Moved(r, k, i, diff); s[k] != RUNTIME_INF && s[i] != RUNTIME_INF && Enabled(s) == Enabled(r)
  {
    PairBound(r, i, k);
    TotalFits(r, b);
    MovedExcess(r, b, k, i, diff);
    var s := Moved(r, k, i, diff);
    assert NonNegative(s);
  }

  lemma PartBound(x: int, n: nat)
    requires x > 0 && n > 0
    ensures 0 <= x / n <= x
  {
    var q := x / n;
    assert q * n + x % n == x;
    AtLeastOne(n, q);
  }

  lemma AtLeastOne(m: nat, b: int)
    requires m >= 1
    ensures b >= 0 ==> b * m >= b
    ensures b < 0 ==> b * m < 0
  {
    if b >= 0 {
      assert b * (m - 1) >= 0;
    } else {
      assert (0 - b) * m > 0;
    }
  }

  lemma LoanBound(r: seq<int>, time: seq<int>, period: int, k: nat, i: nat)
    requires k < |r| == |time| && i < |r| && period >= 0 && Lends(r, time, k, i) && time[i] >= 0 && r[k] >= 0
    ensures var d := Loan(r, time, period, k, i);
            && -r[k] <= d <= r[i] - time[i]
            && (r[k] <= period ==> 0 <= d && r[k] + d <= period)
  {
    PartBound(r[i] - time[i], |r|);
  }

  /** Borrowing conserves runtime; a lender is left with at least the time it has used, a queue without
      spare time lends nothing, and a borrower does not go beyond the period. */
  lemma {:induction false} BalancedKeeps(r: seq<int>, time: seq<int>, b: int, period: int, k: nat, i: nat)
    requires Conserved(r, b) && k < |r| == |time| && i <= |r| && r[k] != RUNTIME_INF && period >= 0 && NonNegative(time)
    ensures var s := Balanced(r, time, period, k, i);
            && Conserved(s, b) && Enabled(s) == Enabled(r)
            && (forall j :: 0 <= j < |r| ==> (s[j] == RUNTIME_INF <==> r[j] == RUNTIME_INF))
            && (forall j :: 0 <= j < |r| && j != k && r[j] >= time[j] ==> s[j] >= time[j])
            && (forall j :: 0 <= j < |r| && j != k && r[j] <= time[j] ==> s[j] == r[j])
            && (r[k] <= period ==> r[k] <= s[k] <= period)
    decreases |r| - i
  {
    hide Total;
    hide Enabled;
    hide Excess;
    hide Shares;
    if i < |r| {
      if Lends(r, time, k, i) {
        var d := Loan(r, time, period, k, i);
        LoanBound(r, time, period, k, i);
        MovedKeeps(r, b, k, i, d);
        BalancedKeeps(Moved(r, k, i, d), time, b, period, k, i + 1);
      } else {
        BalancedKeeps(r, time, b, period, k, i + 1);
      }
    }
  }

  /** One n-th of what queue j has to spare. */
  ghost function Part(r: seq<int>, time: seq<int>, j: nat): int
    requires j < |r| == |time|
  {
    (r[j] - time[j]) / |r|
  }

  /** What the lenders from queue i on have given when s is what has become of r. */
  ghost predicate LentInOrder(r: seq<int>, s: seq<int>, time: seq<int>, period: int, k: nat, i: nat)
    requires k < |r| == |time| == |s| && i <= |r|
  {
    && (s[k] == period || forall j :: i <= j < |r| && Lends(r, time, k, j) ==> s[j] == r[j] - Part(r, time, j))
    && (forall j :: i <= j < |r| && Lends(r, time, k, j) ==> r[j] - Part(r, time, j) <= s[j] <= r[j])
    && (forall j, l :: i <= j < l < |r| && Lends(r, time, k, j) && l != k && s[l] != r[l] ==>
          s[j] == r[j] - Part(r, time, j))
    && (forall j :: 0 <= j < i && j != k ==> s[j] == r[j])
    && (forall j :: i <= j < |r| && j != k && !Lends(r, time, k, j) ==> s[j] == r[j])
  }

  lemma OneLends(r: seq<int>, time: seq<int>, period: int, k: nat, i: nat)
    requires k < |r| == |time| && i < |r| && Lends(r, time, k, i) && r[k] < period && time[i] >= 0 && r[k] >= 0
    ensures var d := Loan(r, time, period, k, i);
            && 0 <= d <= Part(r, time, i) && r[k] + d <= period && (r[k] + d != period ==> d == Part(r, time, i))
  {
    LoanBound(r, time, period, k, i);
  }

  /** A first lender, and those after it. */
  lemma LentMore(r: seq<int>, m: seq<int>, s: seq<int>, time: seq<int>, period: int, k: nat, i: nat, d: int)
    requires k < |r| == |time| == |s| && i < |r| && Lends(r, time, k, i) && m == Moved(r, k, i, d)
    requires 0 <= d <= Part(r, time, i)
    requires if m[k] == period then s == m else d == Part(r, time, i) && LentInOrder(m, s, time, period, k, i + 1)
    ensures LentInOrder(r, s, time, period, k, i)
  {
    forall j | i < j < |r| && j != k ensures Lends(m, time, k, j) == Lends(r, time, k, j) && m[j] == r[j]
                                            && Part(m, time, j) == Part(r, time, j) {
    }
    hide Part;
    hide Lends;
  }

  lemma LentNone(r: seq<int>, s: seq<int>, time: seq<int>, period: int, k: nat, i: nat)
    requires k < |r| == |time| == |s| && i <= |r| && (i < |r| ==> !Lends(r, time, k, i))
    requires if i == |r| then s == r else LentInOrder(r, s, time, period, k, i + 1)
    ensures LentInOrder(r, s, time, period, k, i)
  {
    hide Part;
  }

  lemma {:induction false} BalancedInOrder(r: seq<int>, time: seq<int>, b: int, period: int, k: nat, i: nat)
    requires Conserved(r, b) && k < |r| == |time| && i <= |r|
    requires r[k] != RUNTIME_INF && r[k] < period && NonNegative(time)
    ensures LentInOrder(r, Balanced(r, time, period, k, i), time, period, k, i)
    decreases |r| - i
  {
    hide Total;
    hide Enabled;
    hide Excess;
    hide Shares;
    hide LentInOrder;
    hide Part;
    hide Loan;
    var s := Balanced(r, time, period, k, i);
    if i < |r| && Lends(r, time, k, i) {
      var d := Loan(r, time, period, k, i);
      LoanBound(r, time, period, k, i);
      OneLends(r, time, period, k, i);
      MovedKeeps(r, b, k, i, d);
      var m := Moved(r, k, i, d);
      if m[k] != period {
        BalancedInOrder(m, time, b, period, k, i + 1);
      }
      LentMore(r, m, s, time, period, k, i, d);
    } else {
      if i < |r| {
        BalancedInOrder(r, time, b, period, k, i + 1);
      }
      LentNone(r, s, time, period, k, i);
    }
  }

  /** Nobody lends more than one n-th of what it has to spare.  Unless the borrower ends up with the whole period,
      every queue with spare time lends that; in any case all do that come before one that lends. */
  lemma BalancedShares(r: seq<int>, time: seq<int>, b: int, period: int, k: nat)
    requires Conserved(r, b) && k < |r| == |time|
    requires r[k] != RUNTIME_INF && r[k] < period && NonNegative(time)
    ensures var s := Balanced(r, time, period, k, 0);
            && (s[k] == period
                || forall j :: 0 <= j < |r| && Lends(r, time, k, j) ==> s[j] == r[j] - (r[j] - time[j]) / |r|)
            && (forall j :: 0 <= j < |r| && Lends(r, time, k, j) ==> r[j] - (r[j] - time[j]) / |r| <= s[j] <= r[j])
            && (forall j, l :: 0 <= j < l < |r| && Lends(r, time, k, j) && l != k && s[l] != r[l] ==>
                  s[j] == r[j] - (r[j] - time[j]) / |r|)
  {
    BalancedInOrder(r, time, b, period, k, 0);
    hide Balanced;
    hide Conserved;
    hide Lends;
    assert forall j {:trigger r[j]} :: 0 <= j < |r| ==> Part(r, time, j) == (r[j] - time[j]) / |r|;
  }

  // ---------------------------------------------------------------- taking back

  /** What is left of the want, and of the runtimes, when queue k has reclaimed from queue i on. */
  ghost function Reclaimed(r: seq<int>, k: nat, want: int, i: nat): (s: (seq<int>, int))
    requires i <= |r|
    ensures |s.0| == |r|
    decreases |r| - i
  {
    if i == |r| then (r, want)
    else if i == k || r[i] == RUNTIME_INF then Reclaimed(r, k, want, i + 1)
    else
      var diff := if want > 0 && r[i] < want then r[i] else want;
      var s := r[i := r[i] - diff];
      if want == diff then (s, 0) else Reclaimed(s, k, want - diff, i + 1)
  }

  lemma ReclaimedDone(r: seq<int>, k: nat, want: int)
    ensures Reclaimed(r, k, want, |r|) == (r, want)
  {
  }

  lemma ReclaimedStep(r: seq<int>, k: nat, want: int, i: nat)
    requires i < |r|
    ensures i == k || r[i] == RUNTIME_INF ==> Reclaimed(r, k, want, i) == Reclaimed(r, k, want, i + 1)
    ensures i != k && r[i] != RUNTIME_INF ==>
              var diff := if want > 0 && r[i] < want then r[i] else want;
              var s := r[i := r[i] - diff];
              Reclaimed(r, k, want, i) == if want == diff then (s, 0) else Reclaimed(s, k, want - diff, i + 1)
  {
  }

  /** The runtime that queue k can reach from queue i on. */
  ghost function Reach(r: seq<int>, k: nat, i: nat): int
    requires i <= |r|
    decreases |r| - i
  {
    if i == |r| then 0 else (if i == k || r[i] == RUNTIME_INF then 0 else r[i]) + Reach(r, k, i + 1)
  }

  lemma {:induction false} ReachUpdate(r: seq<int>, k: nat, i: nat, j: nat, v: int)
    requires j < i <= |r|
    ensures Reach(r[j := v], k, i) == Reach(r, k, i)
    decreases |r| - i
  {
    if i < |r| {
      ReachUpdate(r, k, i + 1, j, v);
    }
  }

  lemma {:induction false} ReachAll(r: seq<int>, k: nat, i: nat)
    requires k < |r| && i <= |r|
    ensures Total(r) == Total(r[..i]) + Reach(r, k, i) + if i <= k && r[k] != RUNTIME_INF then r[k] else 0
    decreases |r| - i
  {
    if i < |r| {
      ReachAll(r, k, i + 1);
      assert r[..i + 1][..i] == r[..i];
    } else {
      assert r[..i] == r;
    }
  }

  lemma {:induction false} ReclaimTakes(r: seq<int>, b: int, k: nat, want: int, i: nat)
    requires k < |r| && i <= |r| && NonNegative(r) && want > 0 && want <= Reach(r, k, i)
    requires forall j :: 0 <= j < |r| && r[j] != RUNTIME_INF ==> r[j] < RUNTIME_INF
    ensures var (s, w) := Reclaimed(r, k, want, i);
            && w == 0 && NonNegative(s) && s[k] == r[k]
            && Excess(s, b) == Excess(r, b) - want && Enabled(s) == Enabled(r)
    decreases |r| - i
  {
    hide Total;
    hide Enabled;
    hide Excess;
    if i == k || r[i] == RUNTIME_INF {
      ReclaimTakes(r, b, k, want, i + 1);
    } else {
      var diff := if r[i] < want then r[i] else want;
      ExcessUpdate(r, b, i, r[i] - diff);
      if diff < want {
        ReachUpdate(r, k, i + 1, i, r[i] - diff);
        ReclaimTakes(r[i := r[i] - diff], b, k, want - diff, i + 1);
      }
    }
  }

  lemma {:induction false} ReclaimGives(r: seq<int>, b: int, k: nat, want: int, i: nat, other: nat)
    requires k < |r| && i <= other < |r| && other != k && r[other] != RUNTIME_INF && NonNegative(r) && want < 0
    requires forall j :: 0 <= j < |r| && j != k && r[j] != RUNTIME_INF ==> r[j] - want < RUNTIME_INF
    ensures var (s, w) := Reclaimed(r, k, want, i);
            && w == 0 && NonNegative(s) && s[k] == r[k]
            && Excess(s, b) == Excess(r, b) - want && Enabled(s) == Enabled(r)
    decreases |r| - i
  {
    hide Total;
    hide Enabled;
    hide Excess;
    if i == k || r[i] == RUNTIME_INF {
      ReclaimGives(r, b, k, want, i + 1, other);
    } else {
      ExcessUpdate(r, b, i, r[i] - want);
    }
  }

  /** __disable_runtime. */
  ghost function Disabled(r: seq<int>, b: int, k: nat): (seq<int>, int)
    requires k < |r|
  {
    var (s, want) := if r[k] == RUNTIME_INF || r[k] == b then (r, 0) else Reclaimed(r, k, b - r[k], 0);
    (s[k := RUNTIME_INF], want)
  }

  lemma {:induction false} OneEnabled(r: seq<int>, b: int, k: nat)
    requires k < |r| && r[k] != RUNTIME_INF
    requires forall j :: 0 <= j < |r| && j != k ==> r[j] == RUNTIME_INF
    ensures Enabled(r) == 1 && Excess(r, b) == r[k] - b
  {
    var n := |r| - 1;
    if k < n {
      OneEnabled(r[..n], b, k);
    } else {
      NoneEnabled(r[..n], b);
    }
  }

  lemma {:induction false} NoneEnabled(r: seq<int>, b: int)
    requires forall j :: 0 <= j < |r| ==> r[j] == RUNTIME_INF
    ensures Enabled(r) == 0 && Excess(r, b) == 0
  {
    if r != [] {
      NoneEnabled(r[..|r| - 1], b);
    }
  }

  lemma {:induction false} ReachExcess(r: seq<int>, b: int, k: nat)
    requires Conserved(r, b) && k < |r| && r[k] != RUNTIME_INF
    ensures Reach(r, k, 0) >= b - r[k] && Enabled(r) >= 1 && b != RUNTIME_INF
  {
    ReachAll(r, k, 0);
    assert r[..0] == [];
    ExcessIsRest(r, b);
    ExcessUpdate(r, b, k, RUNTIME_INF);
    SharesGrow(Enabled(r), Enabled(r), b);
  }

  /** The reclaim loop ends with nothing wanted. */
  lemma ReclaimEnds(r: seq<int>, b: int, k: nat)
    requires Conserved(r, b) && k < |r| && r[k] != RUNTIME_INF && r[k] != b
    ensures var (s, w) := Reclaimed(r, k, b - r[k], 0);
            && w == 0 && NonNegative(s) && s[k] == r[k]
            && Excess(s, b) == r[k] - b && Enabled(s) == Enabled(r) >= 1
  {
    var want := b - r[k];
    Fitting(r, b, k);
    ReachExcess(r, b, k);
    if want > 0 {
      ReclaimTakes(r, b, k, want, 0);
    } else if other :| 0 <= other < |r| && other != k && r[other] != RUNTIME_INF {
      ReclaimGives(r, b, k, want, 0, other);
    } else {
      OneEnabled(r, b, k);
    }
  }

  /** BUG_ON(want) never fires: conservation lets a queue take back exactly what it lent, or return what
      it borrowed, and conservation holds again without it. */
  lemma {:induction false} NeverLeftWanting(r: seq<int>, b: int, k: nat)
    requires Conserved(r, b) && k < |r|
    ensures Disabled(r, b, k).1 == 0
    ensures Conserved(Disabled(r, b, k).0, b)
    ensures Enabled(Disabled(r, b, k).0) == Enabled(r) - if r[k] == RUNTIME_INF then 0 else 1
  {
    var s := r;
    if r[k] == RUNTIME_INF {
      assert r[k := RUNTIME_INF] == r;
    } else {
      ReachExcess(r, b, k);
      if r[k] != b {
        ReclaimEnds(r, b, k);
        s := Reclaimed(r, k, b - r[k], 0).0;
      }
      ExcessUpdate(s, b, k, RUNTIME_INF);
    }
  }

  /** What is wanted back, every runtime, and every runtime after a reclaim fit a signed word. */
  lemma Fitting(r: seq<int>, b: int, k: nat)
    requires Conserved(r, b) && k < |r| && r[k] != RUNTIME_INF
    ensures -SIGNED < b - r[k] < SIGNED
    ensures forall j :: 0 <= j < |r| && r[j] != RUNTIME_INF ==> r[j] < SIGNED
    ensures forall j :: 0 <= j < |r| && j != k && r[j] != RUNTIME_INF ==> r[j] - (b - r[k]) < SIGNED
  {
    TotalFits(r, b);
    ExcessUpdate(r, b, k, RUNTIME_INF);
    if b != RUNTIME_INF {
      SharesGrow(1, |r|, b);
    }
    forall j | 0 <= j < |r| && r[j] != RUNTIME_INF ensures r[j] <= Total(r) && (j != k ==> r[j] + r[k] <= Total(r)) {
      TotalUpdate(r, j, 0);
      TotalNonNegative(r[j := 0]);
      if j != k {
        PairBound(r, j, k);
      }
    }
  }

  // ---------------------------------------------------------------- runs

  datatype State = State(runtime: seq<int>, time: seq<int>, b: int, period: int)

  datatype Op =
    | Use(k: nat, time: nat)               // running, a period timer: the used time changes
    | Borrow(k: nat)                       // balance_runtime
    | Disable(k: nat)
    | Enable(k: nat)
    | SetAll(b: nat, period: nat)          // tg_set_rt_bandwidth

  ghost predicate Inv(s: State) {
    && |s.time| == |s.runtime| && s.period >= 0 && Conserved(s.runtime, s.b)
    && forall i :: 0 <= i < |s.time| ==> 0 <= s.time[i] < RUNTIME_INF
  }

  /** What the callers see to: a queue is enabled only when it is disabled; and numbers fit their words. */
  ghost predicate Legal(s: State, op: Op) {
    match op
    case Use(k, time) => k < |s.runtime| && time < RUNTIME_INF
    case Borrow(k) => k < |s.runtime|
    case Disable(k) => k < |s.runtime|
    case Enable(k) => k < |s.runtime| && s.runtime[k] == RUNTIME_INF
    case SetAll(b, period) => b == RUNTIME_INF || Fits(|s.runtime|, b)
  }

  ghost function Step(s: State, op: Op): State
    requires Inv(s) && Legal(s, op)
  {
    match op
    case Use(k, time) => s.(time := s.time[k := time])
    case Borrow(k) =>
      if s.time[k] > s.runtime[k] then s.(runtime := Balanced(s.runtime, s.time, s.period, k, 0)) else s
    case Disable(k) => s.(runtime := Disabled(s.runtime, s.b, k).0)
    case Enable(k) => s.(runtime := s.runtime[k := s.b], time := s.time[k := 0])
    case SetAll(b, period) => s.(runtime := seq(|s.runtime|, i => b), b := b, period := period)
  }

  lemma {:induction false} AllAlike(n: nat, b: int)
    ensures var r := seq(n, i => b);
            Excess(r, b) == 0 && (b == RUNTIME_INF ==> Enabled(r) == 0)
  {
    if n > 0 {
      AllAlike(n - 1, b);
      assert seq(n, i => b)[..n - 1] == seq(n - 1, i => b);
    }
  }

  /** Enabling a disabled queue gives it one share. */
  lemma EnableKeeps(r: seq<int>, b: int, k: nat)
    requires Conserved(r, b) && k < |r| && r[k] == RUNTIME_INF
    ensures Conserved(r[k := b], b)
  {
    ExcessUpdate(r, b, k, b);
  }

  /** __enable_runtime does not look whether the queue is disabled.  On an enabled one it conserves runtime
      iff nothing is lent or borrowed. */
  lemma EnableTwice(r: seq<int>, b: int, k: nat)
    requires Conserved(r, b) && k < |r| && r[k] != RUNTIME_INF
    ensures Conserved(r[k := b], b) <==> r[k] == b
  {
    ReachExcess(r, b, k);
    ExcessUpdate(r, b, k, b);
  }

  /** For instance, a CPU that comes up twice after it has borrowed. */
  lemma EnableTwiceLeaks()
    ensures Conserved([6, 4], 5) && !Conserved([6, 4][0 := 5], 5)
  {
    var r := [6, 4];
    assert r[..1] == [6] && r[..1][..0] == [];
    assert Excess(r, 5) == Excess([6], 5) + -1;
    EnableTwice(r, 5, 0);
  }

  // ---------------------------------------------------------------- reclaim and the period

  ghost predicate WithinPeriod(r: seq<int>, period: int) {
    forall j :: 0 <= j < |r| && r[j] != RUNTIME_INF ==> r[j] <= period
  }

  /** The first enabled queue from i on that is not k. */
  function FirstOther(r: seq<int>, k: nat, i: nat): (f: nat)
    requires i <= |r|
    ensures i <= f <= |r| && (f < |r| ==> f != k && r[f] != RUNTIME_INF)
    ensures forall j :: i <= j < f ==> j == k || r[j] == RUNTIME_INF
    decreases |r| - i
  {
    if i == |r| then i else if i != k && r[i] != RUNTIME_INF then i else FirstOther(r, k, i + 1)
  }

  /** A queue that has borrowed returns all of it to the first other queue. */
  lemma {:induction false} ReturnsToFirst(r: seq<int>, k: nat, want: int, i: nat)
    requires i <= |r| && want < 0
    ensures var f := FirstOther(r, k, i);
            Reclaimed(r, k, want, i) == if f < |r| then (r[f := r[f] - want], 0) else (r, want)
    decreases |r| - i
  {
    if i < |r| && (i == k || r[i] == RUNTIME_INF) {
      ReturnsToFirst(r, k, want, i + 1);
    }
  }

  /** One that has lent only takes, and from nobody before all that come earlier have nothing left. */
  lemma {:induction false} TakingShrinks(r: seq<int>, k: nat, want: int, i: nat)
    requires i <= |r| && want > 0 && NonNegative(r)
    requires forall j :: 0 <= j < |r| && r[j] != RUNTIME_INF ==> r[j] < RUNTIME_INF
    ensures var s := Reclaimed(r, k, want, i).0;
            && (forall j :: 0 <= j < |r| ==> s[j] <= r[j] && (r[j] == RUNTIME_INF ==> s[j] == RUNTIME_INF))
            && (forall j :: 0 <= j < i ==> s[j] == r[j])
            && (forall j, l :: i <= j < l < |r| && j != k && r[j] != RUNTIME_INF && s[l] < r[l] ==> s[j] == 0)
    decreases |r| - i
  {
    if i < |r| {
      if i == k || r[i] == RUNTIME_INF {
        TakingShrinks(r, k, want, i + 1);
      } else if r[i] < want {
        TakingShrinks(r[i := 0], k, want - r[i], i + 1);
      }
    }
  }

  /** A reclaim leaves every queue within the period iff the queue that goes away has not borrowed, or the
      first other queue has room for all that it has borrowed. */
  lemma ReclaimWithinPeriod(r: seq<int>, b: int, period: int, k: nat)
    requires Conserved(r, b) && k < |r| && r[k] != RUNTIME_INF && WithinPeriod(r, period)
    ensures var f := FirstOther(r, k, 0);
            WithinPeriod(Disabled(r, b, k).0, period) <==> r[k] <= b || (f < |r| && r[f] + (r[k] - b) <= period)
  {
    var f := FirstOther(r, k, 0);
    Fitting(r, b, k);
    if r[k] < b {
      TakingShrinks(r, k, b - r[k], 0);
    } else if r[k] > b {
      ReturnsToFirst(r, k, b - r[k], 0);
      if f == |r| {
        OneEnabled(r, b, k);
      } else {
        assert Disabled(r, b, k).0[f] == r[f] + (r[k] - b);
      }
    }
  }

  /** For instance, the period is 10, and a queue that has borrowed 1 goes away. */
  lemma AbovePeriod()
    ensures Conserved([10, 10, 7], 9) && WithinPeriod([10, 10, 7], 10)
    ensures !WithinPeriod(Disabled([10, 10, 7], 9, 0).0, 10)
  {
    var r := [10, 10, 7];
    assert r[..2] == [10, 10] && r[..2][..1] == [10] && r[..2][..1][..0] == [];
    assert Excess([10], 9) == 1 && Excess([10, 10], 9) == 2 && Excess(r, 9) == 0;
    ReclaimWithinPeriod(r, 9, 10, 0);
  }

  lemma StepKeeps(s: State, op: Op)
    requires Inv(s) && Legal(s, op)
    ensures Inv(Step(s, op))
  {
    match op {
      case Use(k, time) =>
      case Borrow(k) =>
        if s.time[k] > s.runtime[k] {
          BalancedKeeps(s.runtime, s.time, s.b, s.period, k, 0);
        }
      case Disable(k) => NeverLeftWanting(s.runtime, s.b, k);
      case Enable(k) => EnableKeeps(s.runtime, s.b, k);
      case SetAll(b, period) => AllAlike(|s.runtime|, b);
    }
  }

  ghost predicate LegalRun(s: State, ops: seq<Op>)
    requires Inv(s)
    decreases |ops|
  {
    ops == [] || (Legal(s, ops[0]) && (StepKeeps(s, ops[0]); LegalRun(Step(s, ops[0]), ops[1..])))
  }

  ghost function Run(s: State, ops: seq<Op>): State
    requires Inv(s) && LegalRun(s, ops)
    decreases |ops|
  {
    if ops == [] then s else StepKeeps(s, ops[0]); Run(Step(s, ops[0]), ops[1..])
  }

  /** Over any run: the enabled queues have as many shares as there are of them, none has less than
      nothing, and no queue that goes away is left wanting. */
  lemma {:induction false} RunConserves(s: State, ops: seq<Op>)
    requires Inv(s) && LegalRun(s, ops)
    ensures var e := Run(s, ops);
            && Inv(e)
            && Total(e.runtime) == Enabled(e.runtime) * e.b
            && forall k :: 0 <= k < |e.runtime| ==> Disabled(e.runtime, e.b, k).1 == 0
    decreases |ops|
  {
    if ops == [] {
      ExcessIsRest(s.runtime, s.b);
      SharesIsProduct(Enabled(s.runtime), s.b);
      forall k | 0 <= k < |s.runtime| ensures Disabled(s.runtime, s.b, k).1 == 0 {
        NeverLeftWanting(s.runtime, s.b, k);
      }
    } else {
      StepKeeps(s, ops[0]);
      RunConserves(Step(s, ops[0]), ops[1..]);
    }
  }

  // ---------------------------------------------------------------- the queues themselves

  /** The rt_rq's of one bandwidth pool, one for each CPU of the root domain. */
  class RootDomain {
    const runtime: array<int>    // rt_rq->rt_runtime
    const time: array<int>       // rt_rq->rt_time
    var b: int                   // rt_b->rt_runtime
    var period: int              // rt_b->rt_period

    constructor (n: nat, b: int, period: int)
      ensures fresh(runtime) && fresh(time) && runtime.Length == time.Length == n && runtime != time
      ensures Abs() == State(seq(n, i => b), seq(n, i => 0), b, period)
    {
      var runtimes := new int[n](i => b);
      var times := new int[n](i => 0);
      runtime, time, this.b, this.period := runtimes, times, b, period;
    }

    ghost function Abs(): State
      reads this, runtime, time
    {
      State(runtime[..], time[..], b, period)
    }

    ghost predicate Valid()
      reads this, runtime, time
    {
      runtime != time && Inv(Abs())
    }

    /** do_balance_runtime. */
    method DoBalanceRuntime(k: nat) returns (more: bool)
      requires Valid() && k < runtime.Length && runtime[k] != RUNTIME_INF
      modifies runtime
      ensures runtime[..] == Balanced(old(runtime[..]), time[..], period, k, 0)
      ensures Valid()
      ensures more <==> exists i :: 0 <= i < runtime.Length && Lends(old(runtime[..]), time[..], k, i)
    {
      hide Balanced;
      ghost var r0 := runtime[..];
      more := false;
      var weight := runtime.Length;
      var i := 0;
      while i < runtime.Length
        invariant 0 <= i <= runtime.Length
        invariant Balanced(r0, time[..], period, k, 0) == Balanced(runtime[..], time[..], period, k, i)
        invariant forall j :: i <= j < runtime.Length && j != k ==> runtime[j] == r0[j]
        invariant more <==> exists j :: 0 <= j < i && Lends(r0, time[..], k, j)
      {
        BalancedStep(runtime[..], time[..], period, k, i);
        if i != k && runtime[i] != RUNTIME_INF {
          var diff := runtime[i] - time[i];
          if diff > 0 {
            assert Lends(r0, time[..], k, i);
            diff := diff / weight;
            if runtime[k] + diff > period {
              diff := period - runtime[k];
            }
            ghost var r := runtime[..];
            runtime[i] := runtime[i] - diff;
            runtime[k] := runtime[k] + diff;
            assert runtime[..] == Moved(r, k, i, diff);
            more := true;
            if runtime[k] == period {
              break;
            }
          }
        }
        i := i + 1;
      }
      if i == runtime.Length {
        BalancedStep(runtime[..], time[..], period, k, i);
      }
      BalancedKeeps(r0, time[..], b, period, k, 0);
    }

    /** balance_runtime. */
    method BalanceRuntime(k: nat) returns (more: bool)
      requires Valid() && k < runtime.Length
      modifies runtime
      ensures Abs() == Step(old(Abs()), Borrow(k)) && Valid()
      ensures time[k] <= old(runtime[k]) ==> runtime[..] == old(runtime[..])
      ensures time[k] > old(runtime[k]) ==> runtime[..] == Balanced(old(runtime[..]), time[..], period, k, 0)
    {
      more := false;
      if time[k] > runtime[k] {
        more := DoBalanceRuntime(k);
      }
    }

    /** __disable_runtime. */
    method DisableRuntime(k: nat)
      requires Valid() && k < runtime.Length
      modifies runtime
      ensures Abs() == Step(old(Abs()), Disable(k)) && Valid()
      ensures runtime[k] == RUNTIME_INF
      ensures old(runtime[k]) == RUNTIME_INF || old(runtime[k]) == b ==>
                runtime[..] == old(runtime[..])[k := RUNTIME_INF]
    {
      NeverLeftWanting(runtime[..], b, k);
      ghost var r0 := runtime[..];
      hide Reclaimed;
      hide Reach;
      if runtime[k] != RUNTIME_INF && runtime[k] != b {
        var want := b - runtime[k];
        var i := 0;
        while i < runtime.Length
          invariant 0 <= i <= runtime.Length && want != 0
          invariant Reclaimed(r0, k, b - r0[k], 0) == Reclaimed(runtime[..], k, want, i)
        {
          ReclaimedStep(runtime[..], k, want, i);
          if i != k && runtime[i] != RUNTIME_INF {
            ghost var r := runtime[..];
            if want > 0 {
              var diff := if runtime[i] < want then runtime[i] else want;
              runtime[i] := runtime[i] - diff;
              want := want - diff;
            } else {
              runtime[i] := runtime[i] - want;
              want := want - want;
            }
            assert runtime[..] == r[i := runtime[i]];
            if want == 0 {
              break;
            }
          }
          i := i + 1;
        }
        ReclaimedDone(runtime[..], k, want);
        assert want == 0;      // BUG_ON(want)
      }
      runtime[k] := RUNTIME_INF;
    }

    /** __enable_runtime. */
    method EnableRuntime(k: nat)
      requires Valid() && k < runtime.Length
      modifies runtime, time
      ensures Abs() == old(Abs()).(runtime := old(runtime[..])[k := b], time := old(time[..])[k := 0])
      ensures Valid() <==> old(runtime[k]) == RUNTIME_INF || old(runtime[k]) == b
    {
      ghost var r0 := runtime[..];
      runtime[k] := b;
      time[k] := 0;
      assert runtime[..] == r0[k := b];
      if r0[k] == RUNTIME_INF {
        EnableKeeps(r0, b, k);
      } else {
        EnableTwice(r0, b, k);
      }
    }
  }
}
