/** pstreecall: the tree of processes, written into a flat buffer by a depth-first search. */
module ProcessDump {

  /** What the dump reads of a task; `kids` is the list of its children. */
  datatype Task = Task(pid: int, state: int, uid: int, comm: string, kids: seq<Task>)

  /** struct prinfo. */
  datatype Prinfo = Prinfo(parentPid: int, pid: int, firstChildPid: int, nextSiblingPid: int,
                           state: int, uid: int, comm: string, depth: nat)

  // ---------------------------------------------------------------- the dump

  function FirstPid(ts: seq<Task>): int {
    if ts == [] then 0 else ts[0].pid
  }

  /** The record of child i of `t`.  The list after the last child leads back to its head, which is no task:
      what the original reads there is `stray`. */
  function Record(t: Task, i: nat, depth: nat, stray: int -> int): Prinfo
    requires i < |t.kids|
  {
    var kid := t.kids[i];
    Prinfo(t.pid, kid.pid, FirstPid(kid.kids), if i + 1 < |t.kids| then t.kids[i + 1].pid else stray(t.pid),
           kid.state, kid.uid, kid.comm, depth)
  }

  /** The records of the children of `t` from child `from` on, each followed by those of its descendants. */
  function Dump(t: Task, from: nat, depth: nat, stray: int -> int): seq<Prinfo>
    requires from <= |t.kids|
    decreases t, |t.kids| - from
  {
    if from == |t.kids| then []
    else [Record(t, from, depth, stray)] + Dump(t.kids[from], 0, depth + 1, stray) + Dump(t, from + 1, depth, stray)
  }

  ghost function Descendants(t: Task, from: nat): nat
    requires from <= |t.kids|
    decreases t, |t.kids| - from
  {
    if from == |t.kids| then 0 else 1 + Descendants(t.kids[from], 0) + Descendants(t, from + 1)
  }

  /** One record for each descendant. */
  lemma {:induction false} DumpLength(t: Task, from: nat, depth: nat, stray: int -> int)
    requires from <= |t.kids|
    ensures |Dump(t, from, depth, stray)| == Descendants(t, from)
    decreases t, |t.kids| - from
  {
    if from < |t.kids| {
      DumpLength(t.kids[from], 0, depth + 1, stray);
      DumpLength(t, from + 1, depth, stray);
    }
  }

  /** The descendants, each before its own, and with its depth. */
  ghost function Below(t: Task, from: nat, depth: nat): seq<(Task, nat)>
    requires from <= |t.kids|
    decreases t, |t.kids| - from
  {
    if from == |t.kids| then []
    else [(t.kids[from], depth)] + Below(t.kids[from], 0, depth + 1) + Below(t, from + 1, depth)
  }

  /** And it tells of each what the task says of itself. */
  lemma {:induction false} DumpTells(t: Task, from: nat, depth: nat, stray: int -> int)
    requires from <= |t.kids|
    ensures var d, p := Dump(t, from, depth, stray), Below(t, from, depth);
            |d| == |p| && forall i :: 0 <= i < |d| ==>
              && d[i].pid == p[i].0.pid && d[i].state == p[i].0.state && d[i].uid == p[i].0.uid
              && d[i].comm == p[i].0.comm && d[i].depth == p[i].1
    decreases t, |t.kids| - from
  {
    if from < |t.kids| {
      DumpTells(t.kids[from], 0, depth + 1, stray);
      DumpTells(t, from + 1, depth, stray);
    }
  }

  /** Buffer b is buffer o with the records `done` written at `lo`. */
  ghost predicate Wrote(o: seq<Prinfo>, b: seq<Prinfo>, lo: nat, done: seq<Prinfo>) {
    lo + |done| <= |o| && b == o[..lo] + done + o[lo + |done|..]
  }

  lemma WroteMore(o: seq<Prinfo>, b: seq<Prinfo>, b': seq<Prinfo>, lo: nat, done: seq<Prinfo>, add: seq<Prinfo>)
    requires Wrote(o, b, lo, done) && Wrote(b, b', lo + |done|, add)
    ensures Wrote(o, b', lo, done + add)
  {
    assert b[..lo + |done|] == o[..lo] + done;
    assert b[lo + |done| + |add|..] == o[lo + |done| + |add|..];
  }

  method Put(buf: array<Prinfo>, nr: nat, r: Prinfo)
    requires nr < buf.Length
    modifies buf
    ensures Wrote(old(buf[..]), buf[..], nr, [r])
  {
    buf[nr] := r;
  }

  /** Child i of `t` and its descendants. */
  ghost function DumpKid(t: Task, i: nat, depth: nat, stray: int -> int): (r: seq<Prinfo>)
    requires i < |t.kids|
    ensures |r| == 1 + Descendants(t.kids[i], 0)
  {
    DumpLength(t.kids[i], 0, depth + 1, stray);
    [Record(t, i, depth, stray)] + Dump(t.kids[i], 0, depth + 1, stray)
  }

  /** The first i children and their descendants, `done`, are written, up to `nr`. */
  ghost predicate Midway(o: seq<Prinfo>, b: seq<Prinfo>, t: Task, i: nat, depth: nat, stray: int -> int,
                         nr0: nat, nr: nat, done: seq<Prinfo>) {
    && i <= |t.kids| && nr == nr0 + |done| && nr + Descendants(t, i) == nr0 + Descendants(t, 0)
    && done + Dump(t, i, depth, stray) == Dump(t, 0, depth, stray)
    && Wrote(o, b, nr0, done)
  }

  lemma MidwayStep(o: seq<Prinfo>, b: seq<Prinfo>, b': seq<Prinfo>, t: Task, i: nat, depth: nat, stray: int -> int,
                   nr0: nat, nr: nat, done: seq<Prinfo>)
    requires Midway(o, b, t, i, depth, stray, nr0, nr, done) && i < |t.kids|
    requires Wrote(b, b', nr, DumpKid(t, i, depth, stray))
    ensures Midway(o, b', t, i + 1, depth, stray, nr0, nr + 1 + Descendants(t.kids[i], 0),
                   done + DumpKid(t, i, depth, stray))
  {
    WroteMore(o, b, b', nr0, done, DumpKid(t, i, depth, stray));
    assert done + DumpKid(t, i, depth, stray) + Dump(t, i + 1, depth, stray) == done + Dump(t, i, depth, stray);
  }

  /** One round of the loop of pscopy. */
  method CopyKid(buf: array<Prinfo>, current: Task, i: nat, nr0: nat, depth: nat, stray: int -> int) returns (nr: nat)
    requires i < |current.kids| && nr0 + 1 + Descendants(current.kids[i], 0) <= buf.Length
    modifies buf
    ensures nr == nr0 + 1 + Descendants(current.kids[i], 0)
    ensures Wrote(old(buf[..]), buf[..], nr0, DumpKid(current, i, depth, stray))
    decreases current, 0
  {
    var next := current.kids[i];
    ghost var o := buf[..];
    Put(buf, nr0, Prinfo(current.pid, next.pid, if next.kids == [] then 0 else next.kids[0].pid,
                         if i + 1 < |current.kids| then current.kids[i + 1].pid else stray(current.pid),
                         next.state, next.uid, next.comm, depth));
    ghost var b := buf[..];
    nr := PsCopy(buf, next, nr0 + 1, depth + 1, stray);
    WroteMore(o, b, buf[..], nr0, [Record(current, i, depth, stray)], Dump(next, 0, depth + 1, stray));
  }

  /** pscopy: writes the dump at `nr`, and nothing else. */
  method PsCopy(buf: array<Prinfo>, current: Task, nr0: nat, depth: nat, stray: int -> int) returns (nr: nat)
    requires nr0 + Descendants(current, 0) <= buf.Length
    modifies buf
    ensures nr == nr0 + Descendants(current, 0)
    ensures Wrote(old(buf[..]), buf[..], nr0, Dump(current, 0, depth, stray))
    decreases current, 1
  {
    nr := nr0;
    DumpLength(current, 0, depth, stray);
    ghost var o, done: seq<Prinfo> := buf[..], [];
    var i := 0;
    while i < |current.kids|
      invariant Midway(o, buf[..], current, i, depth, stray, nr0, nr, done)
    {
      ghost var b, n := buf[..], nr;
      nr := CopyKid(buf, current, i, nr, depth, stray);
      MidwayStep(o, b, buf[..], current, i, depth, stray, nr0, n, done);
      done := done + DumpKid(current, i, depth, stray);
      i := i + 1;
    }
  }

  // ---------------------------------------------------------------- the forest in the dump

  datatype Node = Node(pid: int, kids: seq<Node>)

  /** The pids of the descendants, as a forest. */
  function Forest(t: Task, from: nat): seq<Node>
    requires from <= |t.kids|
    decreases t, |t.kids| - from
  {
    if from == |t.kids| then [] else [Node(t.kids[from].pid, Forest(t.kids[from], 0))] + Forest(t, from + 1)
  }

  type Line = (int, nat)      // pid and depth

  function Lines(s: seq<Prinfo>): (r: seq<Line>)
    ensures |r| == |s| && forall i :: 0 <= i < |s| ==> r[i] == (s[i].pid, s[i].depth)
  {
    if s == [] then [] else [(s[0].pid, s[0].depth)] + Lines(s[1..])
  }

  /** Read back the trees that stand side by side at depth d, and what follows them. */
  function Parse(s: seq<Line>, d: nat): (r: (seq<Node>, seq<Line>))
    ensures |r.1| <= |s|
    decreases |s|
  {
    if s == [] || s[0].1 != d then ([], s)
    else
      var (kids, rest) := Parse(s[1..], d + 1);
      var (more, rest2) := Parse(rest, d);
      ([Node(s[0].0, kids)] + more, rest2)
  }

  function Decode(s: seq<Line>): seq<Node> {
    Parse(s, 0).0
  }

  lemma LinesConcat(a: seq<Prinfo>, b: seq<Prinfo>)
    ensures Lines(a + b) == Lines(a) + Lines(b)
  {
  }

  lemma ParseNode(pid: int, d: nat, x: seq<Line>)
    ensures Parse([(pid, d)] + x, d)
         == var (kids, rest) := Parse(x, d + 1);
            var (more, rest2) := Parse(rest, d);
            ([Node(pid, kids)] + more, rest2)
  {
    assert ([(pid, d)] + x)[1..] == x;
  }

  function Encode(f: seq<Node>, d: nat): seq<Line> {
    if f == [] then [] else [(f[0].pid, d)] + Encode(f[0].kids, d + 1) + Encode(f[1..], d)
  }

  lemma {:induction false} DumpEncodes(t: Task, from: nat, depth: nat, stray: int -> int)
    requires from <= |t.kids|
    ensures Lines(Dump(t, from, depth, stray)) == Encode(Forest(t, from), depth)
    decreases t, |t.kids| - from
  {
    if from < |t.kids| {
      var kid := t.kids[from];
      var sub, rest := Dump(kid, 0, depth + 1, stray), Dump(t, from + 1, depth, stray);
      var rec := Record(t, from, depth, stray);
      LinesConcat([rec] + sub, rest);
      LinesConcat([rec], sub);
      DumpEncodes(kid, 0, depth + 1, stray);
      DumpEncodes(t, from + 1, depth, stray);
      assert Forest(t, from)[1..] == Forest(t, from + 1);
    }
  }

  /** Reading back what was written gives the forest, and leaves what follows it. */
  lemma {:induction false} EncodeParses(f: seq<Node>, d: nat, tail: seq<Line>)
    requires tail == [] || tail[0].1 < d
    ensures Parse(Encode(f, d) + tail, d) == (f, tail)
    decreases f
  {
    if f == [] {
      assert [] + tail == tail;
    } else {
      var kids, more := Encode(f[0].kids, d + 1), Encode(f[1..], d);
      Regroup([(f[0].pid, d)], kids, more, tail);
      ParseNode(f[0].pid, d, kids + (more + tail));
      EncodeStarts(f[1..], d, tail);
      EncodeParses(f[0].kids, d + 1, more + tail);
      EncodeParses(f[1..], d, tail);
      assert f == [Node(f[0].pid, f[0].kids)] + f[1..];
    }
  }

  lemma EncodeStarts(f: seq<Node>, d: nat, tail: seq<Line>)
    requires tail == [] || tail[0].1 < d
    ensures Encode(f, d) + tail == [] || (Encode(f, d) + tail)[0].1 < d + 1
  {
  }

  /** The (pid, depth) columns alone give back the whole forest. */
  lemma DumpDecodes(t: Task, stray: int -> int)
    ensures Decode(Lines(Dump(t, 0, 0, stray))) == Forest(t, 0)
  {
    DumpEncodes(t, 0, 0, stray);
    EncodeParses(Forest(t, 0), 0, []);
    assert Encode(Forest(t, 0), 0) + [] == Encode(Forest(t, 0), 0);
  }

  /** Reading back loses nothing of any lines whatever. */
  lemma {:induction false} ParseEncodes(s: seq<Line>, d: nat)
    ensures Encode(Parse(s, d).0, d) + Parse(s, d).1 == s
    decreases |s|
  {
    if s != [] && s[0].1 == d {
      var (kids, rest) := Parse(s[1..], d + 1);
      var (more, rest2) := Parse(rest, d);
      ParseEncodes(s[1..], d + 1);
      ParseEncodes(rest, d);
      EncodeNode(s[0].0, kids, more, d);
      assert Parse(s, d) == ([Node(s[0].0, kids)] + more, rest2);
      Regroup([s[0]], Encode(kids, d + 1), Encode(more, d), rest2);
    }
  }

  lemma EncodeNode(pid: int, kids: seq<Node>, more: seq<Node>, d: nat)
    ensures Encode([Node(pid, kids)] + more, d) == [(pid, d)] + Encode(kids, d + 1) + Encode(more, d)
  {
    assert ([Node(pid, kids)] + more)[1..] == more;
  }

  lemma Regroup(a: seq<Line>, b: seq<Line>, c: seq<Line>, e: seq<Line>)
    ensures a + b + c + e == a + (b + (c + e))
  {
  }

  /** Lines that can come from a forest: they begin at depth d, stay there or below, and never go down
      by more than one. */
  ghost predicate Preorder(s: seq<Line>, d: nat) {
    && (s != [] ==> s[0].1 == d)
    && (forall i :: 0 <= i < |s| ==> s[i].1 >= d)
    && (forall i :: 0 < i < |s| ==> s[i].1 <= s[i - 1].1 + 1)
  }

  /** Parsing stops where a line is above depth d, or more than one below its predecessor. */
  lemma {:induction false} ParseStops(s: seq<Line>, d: nat) returns (k: nat)
    requires forall i :: 0 < i < |s| ==> s[i].1 <= s[i - 1].1 + 1
    requires s != [] ==> s[0].1 <= d
    ensures k <= |s| && Parse(s, d).1 == s[k..] && (k < |s| ==> s[k].1 < d)
    decreases |s|
  {
    k := 0;
    if s != [] && s[0].1 == d {
      var j := ParseStops(s[1..], d + 1);
      var rest := Parse(s[1..], d + 1).1;
      assert rest == s[j + 1..];
      k := ParseStops(s[j + 1..], d);
      k := j + 1 + k;
    }
  }

  /** Every such list of lines is the dump of exactly one forest. */
  lemma LinesAreForest(s: seq<Line>)
    requires Preorder(s, 0)
    ensures Encode(Decode(s), 0) == s
  {
    var k := ParseStops(s, 0);
    ParseEncodes(s, 0);
    assert s[k..] == [] && Encode(Decode(s), 0) + [] == Encode(Decode(s), 0);
  }

  // ---------------------------------------------------------------- the links between records

  /** Record j is the nearest record before i that is one level up. */
  ghost predicate Covers(s: seq<Prinfo>, j: int, i: int) {
    0 <= j < i < |s| && s[j].depth + 1 == s[i].depth && forall k :: j < k < i ==> s[k].depth >= s[i].depth
  }

  ghost predicate ParentOk(s: seq<Prinfo>, i: nat, base: nat, root: int)
    requires i < |s|
  {
    if s[i].depth <= base then s[i].parentPid == root
    else exists j :: Covers(s, j, i) && s[i].parentPid == s[j].pid
  }

  ghost predicate ChildOk(s: seq<Prinfo>, i: nat)
    requires i < |s|
  {
    s[i].firstChildPid == if i + 1 < |s| && s[i + 1].depth == s[i].depth + 1 then s[i + 1].pid else 0
  }

  /** Record k is the next one after i on the same level under the same parent. */
  ghost predicate Follows(s: seq<Prinfo>, i: int, k: int) {
    0 <= i < k < |s| && s[k].depth == s[i].depth && forall m :: i < m < k ==> s[m].depth > s[i].depth
  }

  ghost predicate SiblingOk(s: seq<Prinfo>, i: nat)
    requires i < |s|
  {
    forall k :: Follows(s, i, k) ==> s[i].nextSiblingPid == s[k].pid
  }

  ghost predicate LinksOk(s: seq<Prinfo>, base: nat, root: int) {
    && (s != [] ==> s[0].depth == base)
    && (forall i :: 0 <= i < |s| ==> s[i].depth >= base)
    && (forall i :: 0 <= i < |s| ==> ParentOk(s, i, base, root))
    && (forall i :: 0 <= i < |s| ==> ChildOk(s, i))
    && (forall i :: 0 <= i < |s| ==> SiblingOk(s, i))
  }

  lemma ParentCompose(rec: Prinfo, sub: seq<Prinfo>, rest: seq<Prinfo>, base: nat, root: int)
    requires rec.depth == base && rec.parentPid == root
    requires LinksOk(sub, base + 1, rec.pid) && LinksOk(rest, base, root)
    ensures var s := [rec] + sub + rest; forall i :: 0 <= i < |s| ==> ParentOk(s, i, base, root)
  {
    var s := [rec] + sub + rest;
    var n := 1 + |sub|;
    forall i | 0 <= i < |s| ensures ParentOk(s, i, base, root) {
      if 1 <= i < n {
        assert s[i] == sub[i - 1] && ParentOk(sub, i - 1, base + 1, rec.pid);
        if s[i].depth <= base + 1 {
          assert Covers(s, 0, i);
        } else {
          var j :| Covers(sub, j, i - 1) && sub[i - 1].parentPid == sub[j].pid;
          assert s[j + 1] == sub[j];
          assert Covers(s, j + 1, i);
        }
      } else if n <= i {
        assert s[i] == rest[i - n] && ParentOk(rest, i - n, base, root);
        if s[i].depth > base {
          var j :| Covers(rest, j, i - n) && rest[i - n].parentPid == rest[j].pid;
          assert s[j + n] == rest[j];
          assert Covers(s, j + n, i);
        }
      }
    }
  }

  lemma ChildCompose(rec: Prinfo, sub: seq<Prinfo>, rest: seq<Prinfo>, base: nat, root: int)
    requires rec.depth == base && rec.firstChildPid == (if sub == [] then 0 else sub[0].pid)
    requires LinksOk(sub, base + 1, rec.pid) && LinksOk(rest, base, root)
    ensures var s := [rec] + sub + rest; forall i :: 0 <= i < |s| ==> ChildOk(s, i)
  {
    var s := [rec] + sub + rest;
    var n := 1 + |sub|;
    forall i | 0 <= i < |s| ensures ChildOk(s, i) {
      if 1 <= i < n {
        assert ChildOk(sub, i - 1);
      } else if n <= i {
        assert ChildOk(rest, i - n);
      }
    }
  }

  lemma SiblingShift(a: seq<Prinfo>, s: seq<Prinfo>, n: nat, i: nat, k: nat)
    requires n + |a| <= |s| && s[n..n + |a|] == a
    requires i < |a| && SiblingOk(a, i) && n + i < k < n + |a| && Follows(s, n + i, k)
    ensures s[n + i].nextSiblingPid == s[k].pid
  {
    var b := s[n..n + |a|];
    assert b[i] == s[n + i] && b[k - n] == s[k];
    assert forall m :: i < m < k - n ==> b[m] == s[m + n];
    assert Follows(a, i, k - n);
  }

  /** s is a record with its descendants `sub` and the siblings after it, `rest`. */
  ghost predicate Composed(s: seq<Prinfo>, rec: Prinfo, sub: seq<Prinfo>, rest: seq<Prinfo>, base: nat, root: int) {
    && s == [rec] + sub + rest && rec.depth == base && (rest != [] ==> rec.nextSiblingPid == rest[0].pid)
    && LinksOk(sub, base + 1, rec.pid) && LinksOk(rest, base, root)
  }

  lemma SiblingHead(s: seq<Prinfo>, rec: Prinfo, sub: seq<Prinfo>, rest: seq<Prinfo>, base: nat, root: int, k: int)
    requires Composed(s, rec, sub, rest, base, root) && Follows(s, 0, k)
    ensures s[0].nextSiblingPid == s[k].pid
  {
    assert forall m :: 0 <= m < |sub| ==> s[m + 1] == sub[m];
    assert rest != [] ==> s[1 + |sub|] == rest[0];
  }

  lemma SubStays(s: seq<Prinfo>, rec: Prinfo, sub: seq<Prinfo>, rest: seq<Prinfo>, base: nat, root: int, i: int, k: int)
    requires Composed(s, rec, sub, rest, base, root) && Follows(s, i, k) && 0 < i <= |sub|
    ensures k <= |sub|
  {
    assert s[i] == sub[i - 1] && s[i].depth > base;
    assert rest != [] ==> s[1 + |sub|] == rest[0];
  }

  lemma SiblingSub(s: seq<Prinfo>, rec: Prinfo, sub: seq<Prinfo>, rest: seq<Prinfo>, i: int, k: int)
    requires s == [rec] + sub + rest && 0 < i <= |sub| && SiblingOk(sub, i - 1) && Follows(s, i, k) && k <= |sub|
    ensures s[i].nextSiblingPid == s[k].pid
  {
    assert s[1..1 + |sub|] == sub;
    SiblingShift(sub, s, 1, i - 1, k);
  }

  lemma SiblingRest(s: seq<Prinfo>, rec: Prinfo, sub: seq<Prinfo>, rest: seq<Prinfo>, base: nat, root: int, i: int,
                    k: int)
    requires Composed(s, rec, sub, rest, base, root) && Follows(s, i, k) && i > |sub|
    ensures s[i].nextSiblingPid == s[k].pid
  {
    var n := 1 + |sub|;
    assert s[n..n + |rest|] == rest;
    SiblingShift(rest, s, n, i - n, k);
  }

  /** parent_pid is the nearest earlier record one level up, or the root at the top; first_child_pid is the
      next record exactly when that is one level down; next_sibling_pid is the following sibling if any. */
  lemma {:induction false} DumpLinks(t: Task, from: nat, depth: nat, stray: int -> int)
    requires from <= |t.kids|
    ensures LinksOk(Dump(t, from, depth, stray), depth, t.pid)
    decreases t, |t.kids| - from
  {
    if from < |t.kids| {
      var kid, rec := t.kids[from], Record(t, from, depth, stray);
      var sub, rest := Dump(kid, 0, depth + 1, stray), Dump(t, from + 1, depth, stray);
      DumpLinks(kid, 0, depth + 1, stray);
      DumpLinks(t, from + 1, depth, stray);
      ParentCompose(rec, sub, rest, depth, t.pid);
      ChildCompose(rec, sub, rest, depth, t.pid);
      var s := [rec] + sub + rest;
      forall i, k | Follows(s, i, k) ensures s[i].nextSiblingPid == s[k].pid {
        if i == 0 {
          SiblingHead(s, rec, sub, rest, depth, t.pid, k);
        } else if i <= |sub| {
          SubStays(s, rec, sub, rest, depth, t.pid, i, k);
          SiblingSub(s, rec, sub, rest, i, k);
        } else {
          SiblingRest(s, rec, sub, rest, depth, t.pid, i, k);
        }
      }
    }
  }

  ghost predicate NonZero(t: Task) {
    forall i :: 0 <= i < |t.kids| ==> t.kids[i].pid != 0 && NonZero(t.kids[i])
  }

  lemma {:induction false} DumpNonZero(t: Task, from: nat, depth: nat, stray: int -> int)
    requires from <= |t.kids| && NonZero(t)
    ensures forall i :: 0 <= i < |Dump(t, from, depth, stray)| ==> Dump(t, from, depth, stray)[i].pid != 0
    decreases t, |t.kids| - from
  {
    if from < |t.kids| {
      DumpNonZero(t.kids[from], 0, depth + 1, stray);
      DumpNonZero(t, from + 1, depth, stray);
    }
  }

  /** A zero first_child_pid means: no children. */
  lemma ZeroMeansLeaf(t: Task, stray: int -> int, i: nat)
    requires NonZero(t) && i < |Dump(t, 0, 0, stray)|
    ensures var s := Dump(t, 0, 0, stray);
            s[i].firstChildPid != 0 <==> i + 1 < |s| && s[i + 1].depth == s[i].depth + 1
  {
    DumpNonZero(t, 0, 0, stray);
    DumpLinks(t, 0, 0, stray);
    assert ChildOk(Dump(t, 0, 0, stray), i);
  }
}
