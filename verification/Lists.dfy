/** The lists and the bitmap of a priority array. */
module Lists {

  /** list_del: the list without entity `e`. */
  function Remove<T(==)>(s: seq<T>, e: T): seq<T> {
    if s == [] then [] else if s[0] == e then s[1..] else [s[0]] + Remove(s[1..], e)
  }

  /** list_add / list_add_tail. */
  function Insert<T>(s: seq<T>, e: T, head: bool): seq<T> {
    if head then [e] + s else s + [e]
  }

  ghost predicate NoDup<T>(s: seq<T>) {
    forall i, j :: 0 <= i < j < |s| ==> s[i] != s[j]
  }

  lemma {:induction false} RemoveSpec<T>(s: seq<T>, e: T)
    requires NoDup(s) && e in s
    ensures NoDup(Remove(s, e)) && |Remove(s, e)| == |s| - 1
    ensures forall x :: x in Remove(s, e) ==> x in s && x != e
    ensures forall x :: x in s && x != e ==> x in Remove(s, e)
  {
    assert s == [s[0]] + s[1..];
    if s[0] != e {
      RemoveSpec(s[1..], e);
      assert s[0] !in Remove(s[1..], e);
    }
  }

  // ---------------------------------------------------------------- order, by index

  /** `r` is `s` with `e` put at one end. */
  ghost predicate AddedTo<T>(s: seq<T>, r: seq<T>, e: T, head: bool) {
    && |r| == |s| + 1 && r[if head then 0 else |s|] == e
    && forall i :: 0 <= i < |s| ==> r[if head then i + 1 else i] == s[i]
  }

  /** `r` is `s` without one occurrence of `e`, the others in their order. */
  ghost predicate TakenFrom<T>(s: seq<T>, r: seq<T>, e: T) {
    |r| + 1 == |s| && exists k :: 0 <= k < |s| && s[k] == e && CutAt(s, r, k)
  }

  ghost predicate CutAt<T>(s: seq<T>, r: seq<T>, k: nat)
    requires |r| + 1 == |s|
  {
    forall i :: 0 <= i < |r| ==> r[i] == s[if i < k then i else i + 1]
  }

  /** `r` is `s` with `e` moved to one end, the others in their order. */
  ghost predicate MovedTo<T>(s: seq<T>, r: seq<T>, e: T, head: bool) {
    && r != [] && r[if head then 0 else |r| - 1] == e
    && TakenFrom(s, if head then r[1..] else r[..|r| - 1], e)
  }

  lemma InsertAdds<T>(s: seq<T>, e: T, head: bool)
    ensures AddedTo(s, Insert(s, e, head), e, head)
  {
  }

  lemma {:induction false} RemoveTakes<T>(s: seq<T>, e: T)
    requires e in s
    ensures TakenFrom(s, Remove(s, e), e)
  {
    if s[0] == e {
      assert CutAt(s, Remove(s, e), 0);
    } else {
      RemoveTakes(s[1..], e);
      var k :| 0 <= k < |s[1..]| && s[1..][k] == e && CutAt(s[1..], Remove(s[1..], e), k);
      assert CutAt(s, Remove(s, e), k + 1) && s[k + 1] == e;
    }
  }

  lemma TakenAdded<T>(s: seq<T>, m: seq<T>, r: seq<T>, e: T, head: bool)
    requires TakenFrom(s, m, e) && AddedTo(m, r, e, head)
    ensures MovedTo(s, r, e, head)
  {
    hide TakenFrom;
    assert (if head then r[1..] else r[..|r| - 1]) == m;
  }

  lemma RemoveInsertMoves<T>(s: seq<T>, e: T, head: bool)
    requires e in s
    ensures MovedTo(s, Insert(Remove(s, e), e, head), e, head)
  {
    RemoveTakes(s, e);
    InsertAdds(Remove(s, e), e, head);
    TakenAdded(s, Remove(s, e), Insert(Remove(s, e), e, head), e, head);
  }

  /** The first of a list that moves to the tail hands its place to the second. */
  lemma FirstLeaves<T>(s: seq<T>, r: seq<T>, e: T)
    requires MovedTo(s, r, e, false) && NoDup(s) && |s| > 1 && s[0] == e
    ensures r[0] == s[1]
  {
    var m := r[..|r| - 1];
    var k :| 0 <= k < |s| && s[k] == e && CutAt(s, m, k);
    assert k == 0;
    assert m[0] == s[1];
  }

  // ---------------------------------------------------------------- counting

  function TotalLen<T>(q: seq<seq<T>>): nat {
    if q == [] then 0 else |q[0]| + TotalLen(q[1..])
  }

  lemma {:induction false} TotalLenUpdate<T>(q: seq<seq<T>>, p: nat, l: seq<T>)
    requires p < |q|
    ensures TotalLen(q[p := l]) == TotalLen(q) - |q[p]| + |l|
  {
    if p == 0 {
      assert q[p := l][1..] == q[1..];
    } else {
      assert q[p := l][1..] == q[1..][p - 1 := l];
      TotalLenUpdate(q[1..], p - 1, l);
    }
  }

  lemma {:induction false} TotalLenPositive<T>(q: seq<seq<T>>, p: nat)
    requires p < |q| && q[p] != []
    ensures TotalLen(q) > 0
  {
    if p > 0 {
      TotalLenPositive(q[1..], p - 1);
    }
  }

  lemma {:induction false} TotalLenZero<T>(q: seq<seq<T>>)
    requires forall p :: 0 <= p < |q| ==> q[p] == []
    ensures TotalLen(q) == 0
  {
    if q != [] {
      TotalLenZero(q[1..]);
    }
  }

  /** sched_find_first_bit, searching from `from`. */
  function FirstBit(bits: seq<bool>, from: nat): (r: nat)
    requires from < |bits| && bits[|bits| - 1]
    ensures from <= r < |bits| && bits[r]
    ensures forall p :: from <= p < r ==> !bits[p]
    decreases |bits| - from
  {
    if bits[from] then from else FirstBit(bits, from + 1)
  }

  /** `best` is the least p whose list is non-empty, |q| when all are empty. */
  ghost predicate IsBest<T>(q: seq<seq<T>>, best: nat) {
    && best <= |q|
    && (best < |q| ==> q[best] != [])
    && (forall p :: 0 <= p < best ==> q[p] == [])
  }
}
