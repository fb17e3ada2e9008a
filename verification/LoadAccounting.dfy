/** Counting the tasks for the load average: every CPU reports its changes, idle CPUs through two buckets
    that take turns.

    Each event is one atomic step.  The global update is not one: CPUs may go idle between its steps.
  */
module LoadAccounting {
  import LoadDecay

  /** LOAD_FREQ. */
  function LoadFreq(hz: nat): nat {
    5 * hz + 1
  }

  const EXP_1: nat := 1884
  const EXP_5: nat := 2014
  const EXP_15: nat := 2037

  /** struct rq: the tasks it counts as active, those it has reported, and when it reports again. */
  datatype Cpu = Cpu(nrActive: int, calcLoadActive: int, update: int)

  /** How far calc_global_load has come. */
  datatype Phase = Resting | Folded | Advanced | CaughtUp

  /** A delta an idle CPU wrote, and when: the time, the time of the window, the phase, the folds already made. */
  datatype Write = Write(delta: int, jiffies: nat, update: int, phase: Phase, made: nat)

  /** One of calc_load_idle[2]: its value, and the deltas that were added since it was last emptied. */
  datatype Bucket = Bucket(value: int, holds: seq<Write>)

  datatype State = State(
    jiffies: nat,
    cpus: seq<Cpu>,
    tasks: int,                    // calc_load_tasks
    idle0: Bucket, idle1: Bucket,  // calc_load_idle[2]
    idx: nat,                      // calc_load_idx
    update: int,                   // calc_load_update
    phase: Phase,
    writes: seq<Write>,            // all deltas written so far
    folds: seq<Bucket>)            // what each fold so far found in its bucket and brought in

  datatype Event =
    | Pass(ticks: nat)             // time goes by
    | Change(cpu: nat, nrActive: int)
    | AccountActive(cpu: nat)      // calc_load_account_active
    | EnterIdle(cpu: nat)          // calc_load_enter_idle
    | ExitIdle(cpu: nat)           // calc_load_exit_idle
    | Remove(cpu: nat)             // calc_global_load_remove
    | Fold                         // calc_global_load, up to and with calc_load_fold_idle
    | Advance                      // calc_load_update += LOAD_FREQ
    | CatchUp                      // calc_global_nohz, but for
    | Flip                         // calc_load_idx++

  // ---------------------------------------------------------------- the steps

  function Slot(s: State, i: nat): Bucket {
    if i % 2 == 0 then s.idle0 else s.idle1
  }

  function SetSlot(s: State, i: nat, b: Bucket): State {
    if i % 2 == 0 then s.(idle0 := b) else s.(idle1 := b)
  }

  const EMPTY := Bucket(0, [])

  function Add(b: Bucket, w: Write): Bucket {
    Bucket(b.value + w.delta, b.holds + [w])
  }

  /** calc_load_write_idx. */
  function WriteIdx(s: State): nat {
    if s.jiffies < s.update then s.idx else s.idx + 1
  }

  /** calc_load_fold_active. */
  function Delta(c: Cpu): int {
    c.nrActive - c.calcLoadActive
  }

  function Reported(s: State, i: nat): State
    requires i < |s.cpus|
  {
    s.(cpus := s.cpus[i := s.cpus[i].(calcLoadActive := s.cpus[i].nrActive)])
  }

  function EnterIdleStep(s: State, i: nat): State
    requires i < |s.cpus|
  {
    var d := Delta(s.cpus[i]);
    if d == 0 then s
    else
      var w := Write(d, s.jiffies, s.update, s.phase, |s.folds|);
      SetSlot(Reported(s, i), WriteIdx(s), Add(Slot(s, WriteIdx(s)), w)).(writes := s.writes + [w])
  }

  function ExitIdleStep(s: State, i: nat, hz: nat): State
    requires i < |s.cpus|
  {
    if s.jiffies < s.cpus[i].update then s
    else
      var u := if s.jiffies < s.update + 10 then s.update + LoadFreq(hz) else s.update;
      s.(cpus := s.cpus[i := s.cpus[i].(update := u)])
  }

  function AccountStep(s: State, i: nat, hz: nat): State
    requires i < |s.cpus|
  {
    if s.jiffies < s.cpus[i].update then s
    else
      var r := Reported(s, i);
      r.(tasks := s.tasks + Delta(s.cpus[i]),
         cpus := r.cpus[i := r.cpus[i].(update := s.cpus[i].update + LoadFreq(hz))])
  }

  function RemoveStep(s: State, i: nat): State
    requires i < |s.cpus|
  {
    s.(tasks := s.tasks - s.cpus[i].calcLoadActive, cpus := s.cpus[i := s.cpus[i].(calcLoadActive := 0)])
  }

  function FoldStep(s: State): State {
    SetSlot(s, s.idx, EMPTY).(tasks := s.tasks + Slot(s, s.idx).value, folds := s.folds + [Slot(s, s.idx)],
                              phase := Folded)
  }

  /** How many periods calc_global_nohz finds missing. */
  function Missed(jiffies: nat, update: int, hz: nat): nat {
    var delta := jiffies - update - 10;
    if delta < 0 then 0 else 1 + delta / LoadFreq(hz)
  }

  /** The time calc_global_nohz leaves behind: one period more until the gate is closed. */
  function CaughtUpTo(jiffies: nat, update: int, hz: nat): (u: int)
    ensures jiffies < u + 10
    decreases jiffies - update
  {
    if jiffies < update + 10 then update else CaughtUpTo(jiffies, update + LoadFreq(hz), hz)
  }

  function CatchUpStep(s: State, hz: nat): State {
    s.(update := CaughtUpTo(s.jiffies, s.update, hz), phase := CaughtUp)
  }

  predicate CanHappen(s: State, e: Event) {
    match e
    case Pass(ticks) => true
    case Change(cpu, nr) => cpu < |s.cpus|
    case AccountActive(cpu) => cpu < |s.cpus|
    case EnterIdle(cpu) => cpu < |s.cpus|
    case ExitIdle(cpu) => cpu < |s.cpus|
    case Remove(cpu) => cpu < |s.cpus|
    case Fold => s.phase.Resting? && s.jiffies >= s.update + 10
    case Advance => s.phase.Folded?
    case CatchUp => s.phase.Advanced?
    case Flip => s.phase.CaughtUp?
  }

  function Step(s: State, e: Event, hz: nat): State
    requires CanHappen(s, e)
  {
    match e
    case Pass(ticks) => s.(jiffies := s.jiffies + ticks)
    case Change(cpu, nr) => s.(cpus := s.cpus[cpu := s.cpus[cpu].(nrActive := nr)])
    case AccountActive(cpu) => AccountStep(s, cpu, hz)
    case EnterIdle(cpu) => EnterIdleStep(s, cpu)
    case ExitIdle(cpu) => ExitIdleStep(s, cpu, hz)
    case Remove(cpu) => RemoveStep(s, cpu)
    case Fold => FoldStep(s)
    case Advance => s.(update := s.update + LoadFreq(hz), phase := Advanced)
    case CatchUp => CatchUpStep(s, hz)
    case Flip => s.(idx := s.idx + 1, phase := Resting)
  }

  // ---------------------------------------------------------------- nothing gets lost

  function Reports(cpus: seq<Cpu>): int {
    if cpus == [] then 0 else Reports(cpus[..|cpus| - 1]) + cpus[|cpus| - 1].calcLoadActive
  }

  lemma {:induction false} ReportsUpdate(cpus: seq<Cpu>, i: nat, c: Cpu)
    requires i < |cpus|
    ensures Reports(cpus[i := c]) == Reports(cpus) - cpus[i].calcLoadActive + c.calcLoadActive
  {
    var n := |cpus| - 1;
    if i < n {
      ReportsUpdate(cpus[..n], i, c);
      assert cpus[i := c][..n] == cpus[..n][i := c];
    } else {
      assert cpus[i := c][..n] == cpus[..n];
    }
  }

  /** What the CPUs have reported is in the global count or in one of the buckets. */
  ghost predicate Accounted(s: State) {
    s.tasks + s.idle0.value + s.idle1.value == Reports(s.cpus)
  }

  lemma StepAccounts(s: State, e: Event, hz: nat)
    requires Accounted(s) && CanHappen(s, e)
    ensures Accounted(Step(s, e, hz))
  {
    hide Reports;
    hide CaughtUpTo;
    match e {
      case Change(cpu, nr) => ReportsUpdate(s.cpus, cpu, Step(s, e, hz).cpus[cpu]);
      case AccountActive(cpu) =>
        var r := Reported(s, cpu);
        ReportsUpdate(s.cpus, cpu, r.cpus[cpu]);
        ReportsUpdate(r.cpus, cpu, r.cpus[cpu].(update := s.cpus[cpu].update + LoadFreq(hz)));
      case EnterIdle(cpu) => ReportsUpdate(s.cpus, cpu, Reported(s, cpu).cpus[cpu]);
      case ExitIdle(cpu) =>
        var u := if s.jiffies < s.update + 10 then s.update + LoadFreq(hz) else s.update;
        ReportsUpdate(s.cpus, cpu, s.cpus[cpu].(update := u));
      case Remove(cpu) => ReportsUpdate(s.cpus, cpu, s.cpus[cpu].(calcLoadActive := 0));
      case _ =>
    }
  }

  // ---------------------------------------------------------------- every delta in its turn

  /** When the window of the coming fold opens, once the update under way, if any, is over. */
  function Opens(w: Write, hz: nat): int {
    match w.phase
    case Resting => w.update
    case Folded => CaughtUpTo(w.jiffies, w.update + LoadFreq(hz), hz)
    case Advanced => CaughtUpTo(w.jiffies, w.update, hz)
    case CaughtUp => w.update
  }

  /** The fold a delta belongs to: the coming one if its window has not opened yet, else the one after. */
  function Intended(w: Write, hz: nat): nat {
    if w.jiffies < Opens(w, hz) then w.made else w.made + 1
  }

  /** Written after the new time and before the new index, ahead of the new time. */
  predicate PutOff(w: Write) {
    (w.phase.Advanced? || w.phase.CaughtUp?) && w.jiffies < w.update
  }

  /** Written during an update that comes so late that the next window is open already. */
  predicate Hurried(w: Write, hz: nat) {
    !w.phase.Resting? && Opens(w, hz) <= w.jiffies
  }

  /** The fold that empties the bucket a delta is written to. */
  ghost function Fate(w: Write): nat {
    match w.phase
    case Resting => if w.jiffies < w.update then w.made else w.made + 1
    case Folded => w.made
    case _ => if w.jiffies < w.update then w.made + 1 else w.made
  }

  lemma FateIsIntended(w: Write, hz: nat)
    ensures !(PutOff(w) && Hurried(w, hz))
    ensures Fate(w) == if PutOff(w) then Intended(w, hz) + 1 else if Hurried(w, hz) then Intended(w, hz) - 1
                       else Intended(w, hz)
  {
  }

  ghost function Sum(ws: seq<Write>): int {
    if ws == [] then 0 else Sum(ws[..|ws| - 1]) + ws[|ws| - 1].delta
  }

  /** A bucket is worth what it holds, and all it holds is for fold k. */
  ghost predicate For(b: Bucket, k: nat) {
    b.value == Sum(b.holds) && forall w <- b.holds :: Fate(w) == k
  }

  lemma ForMore(b: Bucket, w: Write, k: nat)
    requires For(b, k) && Fate(w) == k
    ensures For(Add(b, w), k)
  {
    assert Add(b, w).holds[..|b.holds|] == b.holds;
  }

  /** Every fold so far has brought in what was for it; each bucket holds what the next fold from it is for. */
  ghost predicate InTurn(s: State) {
    && |s.folds| == s.idx + (if s.phase.Resting? then 0 else 1)
    && (forall k :: 0 <= k < |s.folds| ==> For(s.folds[k], k))
    && For(Slot(s, s.idx), if s.phase.Resting? then s.idx else s.idx + 2)
    && For(Slot(s, s.idx + 1), s.idx + 1)
    && (s.phase.Folded? ==> s.update <= s.jiffies)
  }

  lemma EnterIdleInTurn(s: State, i: nat)
    requires InTurn(s) && i < |s.cpus|
    ensures InTurn(EnterIdleStep(s, i))
  {
    hide For;
    var d := Delta(s.cpus[i]);
    if d != 0 {
      var w := Write(d, s.jiffies, s.update, s.phase, |s.folds|);
      ForMore(Slot(s, WriteIdx(s)), w, Fate(w));
    }
  }

  lemma StepInTurn(s: State, e: Event, hz: nat)
    requires InTurn(s) && CanHappen(s, e)
    ensures InTurn(Step(s, e, hz))
  {
    if e.EnterIdle? {
      EnterIdleInTurn(s, e.cpu);
    } else {
      assert For(EMPTY, s.idx + 2);
      hide For;
      hide CaughtUpTo;
    }
  }

  /** What the folds have brought in. */
  ghost function Brought(folds: seq<Bucket>): multiset<Write> {
    if folds == [] then multiset{} else Brought(folds[..|folds| - 1]) + multiset(folds[|folds| - 1].holds)
  }

  /** Every delta written is in one place: a bucket, or one of the folds. */
  ghost predicate OncePlaced(s: State) {
    multiset(s.writes) == multiset(s.idle0.holds) + multiset(s.idle1.holds) + Brought(s.folds)
  }

  lemma EnterIdlePlaces(s: State, i: nat)
    requires OncePlaced(s) && i < |s.cpus|
    ensures OncePlaced(EnterIdleStep(s, i))
  {
    hide Brought;
  }

  lemma FoldPlaces(s: State)
    requires OncePlaced(s)
    ensures OncePlaced(FoldStep(s))
  {
    assert FoldStep(s).folds[..|s.folds|] == s.folds;
  }

  lemma StepPlaces(s: State, e: Event, hz: nat)
    requires OncePlaced(s) && CanHappen(s, e)
    ensures OncePlaced(Step(s, e, hz))
  {
    if e.Fold? {
      FoldPlaces(s);
    } else if e.EnterIdle? {
      EnterIdlePlaces(s, e.cpu);
    } else {
      hide Brought;
      hide CaughtUpTo;
      var r := Step(s, e, hz);
      assert r.writes == s.writes && r.idle0 == s.idle0 && r.idle1 == s.idle1 && r.folds == s.folds;
    }
  }

  /** A CPU that wakes up inside a window is not asked again before the next one opens: what it had reported
      when the window opened stands. */
  lemma WindowSkipped(s: State, i: nat, hz: nat, later: nat)
    requires i < |s.cpus| && s.cpus[i].update <= s.jiffies && s.update <= s.jiffies < s.update + 10
    ensures var r := ExitIdleStep(s, i, hz);
            && r.cpus[i].update == s.update + LoadFreq(hz)
            && (later < s.update + LoadFreq(hz) ==> AccountStep(r.(jiffies := later), i, hz) == r.(jiffies := later))
  {
  }

  ghost predicate IsRun(s: State, es: seq<Event>, hz: nat)
    decreases |es|
  {
    es == [] || (CanHappen(s, es[0]) && IsRun(Step(s, es[0], hz), es[1..], hz))
  }

  ghost function End(s: State, es: seq<Event>, hz: nat): State
    requires IsRun(s, es, hz)
    decreases |es|
  {
    if es == [] then s else End(Step(s, es[0], hz), es[1..], hz)
  }

  lemma {:induction false} RunKeeps(s: State, es: seq<Event>, hz: nat)
    requires Accounted(s) && InTurn(s) && OncePlaced(s) && IsRun(s, es, hz)
    ensures Accounted(End(s, es, hz)) && InTurn(End(s, es, hz)) && OncePlaced(End(s, es, hz))
    decreases |es|
  {
    if es != [] {
      StepAccounts(s, es[0], hz);
      StepInTurn(s, es[0], hz);
      StepPlaces(s, es[0], hz);
      hide Step;
      hide Accounted;
      hide InTurn;
      hide OncePlaced;
      RunKeeps(Step(s, es[0], hz), es[1..], hz);
    }
  }

  /** sched_init, with nothing reported. */
  function Start(cpus: nat, update: int): State {
    State(0, seq(cpus, i => Cpu(0, 0, update)), 0, EMPTY, EMPTY, 0, update, Resting, [], [])
  }

  lemma {:induction false} NoReports(n: nat, update: int)
    ensures Reports(seq(n, i => Cpu(0, 0, update))) == 0
  {
    if n > 0 {
      assert seq(n, i => Cpu(0, 0, update))[..n - 1] == seq(n - 1, i => Cpu(0, 0, update));
      NoReports(n - 1, update);
    }
  }

  /** From the start on, under any interleaving: nothing that was reported is lost or counted twice. */
  lemma {:induction false} AllAccounted(cpus: nat, update: int, es: seq<Event>, hz: nat)
    requires IsRun(Start(cpus, update), es, hz)
    ensures var e := End(Start(cpus, update), es, hz);
            && e.tasks + e.idle0.value + e.idle1.value == Reports(e.cpus)
            && multiset(e.writes) == multiset(e.idle0.holds) + multiset(e.idle1.holds) + Brought(e.folds)
            && forall k :: 0 <= k < |e.folds| ==> e.folds[k].value == Sum(e.folds[k].holds)
  {
    NoReports(cpus, update);
    RunKeeps(Start(cpus, update), es, hz);
  }

  // ---------------------------------------------------------------- the count is right

  function Actives(cpus: seq<Cpu>): int {
    if cpus == [] then 0 else Actives(cpus[..|cpus| - 1]) + cpus[|cpus| - 1].nrActive
  }

  predicate UpToDate(s: State, i: nat) {
    i < |s.cpus| && s.cpus[i].calcLoadActive == s.cpus[i].nrActive
  }

  /** A tick at or after the CPU's update time, or its going idle. */
  predicate ReportsNow(s: State, e: Event, i: nat) {
    i < |s.cpus| && (e == Event.EnterIdle(i) || (e == Event.AccountActive(i) && s.cpus[i].update <= s.jiffies))
  }

  /** The number of tasks of a CPU changes, or its report is taken back. */
  predicate Touches(e: Event, i: nat) {
    (e.Change? || e.Remove?) && e.cpu == i
  }

  /** CPU i reports in this run, and is not touched from then on. */
  ghost predicate HasReported(s: State, es: seq<Event>, hz: nat, i: nat)
    requires IsRun(s, es, hz)
    decreases |es|
  {
    es != [] && (HasReported(Step(s, es[0], hz), es[1..], hz, i)
                 || (ReportsNow(s, es[0], i) && forall e <- es[1..] :: !Touches(e, i)))
  }

  /** A report, and nothing else but a touch, decides whether a CPU's report is up to date. */
  lemma StepReports(s: State, e: Event, hz: nat, i: nat)
    requires CanHappen(s, e)
    ensures |Step(s, e, hz).cpus| == |s.cpus|
    ensures ReportsNow(s, e, i) || (UpToDate(s, i) && !Touches(e, i)) ==> UpToDate(Step(s, e, hz), i)
  {
    hide CaughtUpTo;
  }

  lemma {:induction false} StaysUpToDate(s: State, es: seq<Event>, hz: nat, i: nat)
    requires IsRun(s, es, hz)
    ensures |End(s, es, hz).cpus| == |s.cpus|
    ensures UpToDate(s, i) && (forall e <- es :: !Touches(e, i)) ==> UpToDate(End(s, es, hz), i)
    decreases |es|
  {
    if es != [] {
      StepReports(s, es[0], hz, i);
      assert es[0] in es && forall e <- es[1..] :: e in es;
      hide Step;
      hide UpToDate;
      StaysUpToDate(Step(s, es[0], hz), es[1..], hz, i);
    }
  }

  lemma {:induction false} ReportedIsUpToDate(s: State, es: seq<Event>, hz: nat, i: nat)
    requires IsRun(s, es, hz) && HasReported(s, es, hz, i)
    ensures UpToDate(End(s, es, hz), i)
    ensures i < |End(s, es, hz).cpus| && End(s, es, hz).cpus[i].calcLoadActive == End(s, es, hz).cpus[i].nrActive
    decreases |es|
  {
    StepReports(s, es[0], hz, i);
    hide Step;
    if HasReported(Step(s, es[0], hz), es[1..], hz, i) {
      ReportedIsUpToDate(Step(s, es[0], hz), es[1..], hz, i);
    } else {
      StaysUpToDate(Step(s, es[0], hz), es[1..], hz, i);
    }
  }

  lemma {:induction false} ReportsAreActives(cpus: seq<Cpu>)
    requires forall i :: 0 <= i < |cpus| ==> cpus[i].calcLoadActive == cpus[i].nrActive
    ensures Reports(cpus) == Actives(cpus)
  {
    if cpus != [] {
      ReportsAreActives(cpus[..|cpus| - 1]);
    }
  }

  lemma EmptyIsZero(s: State)
    requires InTurn(s)
    ensures (s.idle0.holds == [] ==> s.idle0.value == 0) && (s.idle1.holds == [] ==> s.idle1.value == 0)
  {
    hide Fate;
    assert For(Slot(s, s.idx + 1), s.idx + 1);
  }

  /** From the start on, under any interleaving: once every CPU has reported, by a tick in its window or by going
      idle, and none has changed since, the count and the buckets add up to the active tasks of all CPUs; and the
      count alone does when the buckets are empty. */
  lemma {:induction false} CountIsRight(cpus: nat, update: int, es: seq<Event>, hz: nat)
    requires IsRun(Start(cpus, update), es, hz)
    requires forall i :: 0 <= i < cpus ==> HasReported(Start(cpus, update), es, hz, i)
    ensures var e := End(Start(cpus, update), es, hz);
            && e.tasks + e.idle0.value + e.idle1.value == Actives(e.cpus)
            && (e.idle0.holds == e.idle1.holds == [] ==> e.tasks == Actives(e.cpus))
  {
    var s, e := Start(cpus, update), End(Start(cpus, update), es, hz);
    assert |s.cpus| == cpus && Accounted(s) && InTurn(s) && OncePlaced(s) by {
      NoReports(cpus, update);
    }
    hide *;
    AllAccounted(cpus, update, es, hz);
    RunKeeps(s, es, hz);
    EmptyIsZero(e);
    StaysUpToDate(s, es, hz, 0);
    forall i | 0 <= i < |e.cpus| ensures e.cpus[i].calcLoadActive == e.cpus[i].nrActive {
      ReportedIsUpToDate(s, es, hz, i);
    }
    ReportsAreActives(e.cpus);
  }

  /** From the start on, under any interleaving: a delta comes in with the fold it belongs to, unless it was
      written between the new time and the new index.  There it comes in one fold late if it was written
      ahead of the new time, and one fold early if the next window was open already. */
  lemma {:induction false} TurnKept(cpus: nat, update: int, es: seq<Event>, hz: nat, k: nat, w: Write)
    requires IsRun(Start(cpus, update), es, hz)
    requires k < |End(Start(cpus, update), es, hz).folds| && w in End(Start(cpus, update), es, hz).folds[k].holds
    ensures k > Intended(w, hz) <==> PutOff(w)
    ensures k < Intended(w, hz) <==> Hurried(w, hz)
    ensures Intended(w, hz) - 1 <= k <= Intended(w, hz) + 1
  {
    NoReports(cpus, update);
    RunKeeps(Start(cpus, update), es, hz);
    assert For(End(Start(cpus, update), es, hz).folds[k], k);
    FateIsIntended(w, hz);
  }

  /** A run from what two more events make of a state. */
  lemma Then(s: State, e: Event, f: Event, es: seq<Event>, hz: nat) returns (r: seq<Event>)
    requires CanHappen(s, e) && CanHappen(Step(s, e, hz), f) && IsRun(Step(Step(s, e, hz), f, hz), es, hz)
    ensures IsRun(s, r, hz) && End(s, r, hz) == End(Step(Step(s, e, hz), f, hz), es, hz)
  {
    hide Step;
    r := [f] + es;
    assert r[1..] == es;
    r := [e] + r;
    assert r[1..] == [f] + es;
  }

  lemma NothingMissed(jiffies: nat, update: int, hz: nat)
    requires jiffies < update + 10
    ensures CaughtUpTo(jiffies, update, hz) == update
  {
  }

  /** Two updates at their gates, when nothing else happens. */
  lemma TwoFolds(s: State, hz: nat) returns (es: seq<Event>)
    requires s.phase.Resting? && s.jiffies <= s.update + 10
    ensures IsRun(s, es, hz)
    ensures End(s, es, hz).folds == s.folds + [Slot(s, s.idx), Slot(s, s.idx + 1)]
  {
    NothingMissed(s.update + 10, s.update + LoadFreq(hz), hz);
    hide CaughtUpTo;
    var s1 := Step(Step(s, Pass(s.update + 10 - s.jiffies), hz), Fold, hz);
    var s2 := Step(Step(Step(s1, Advance, hz), CatchUp, hz), Flip, hz);
    assert s2.update == s.update + LoadFreq(hz) && s2.jiffies == s.update + 10;
    var s3 := Step(Step(s2, Pass(LoadFreq(hz)), hz), Fold, hz);
    assert s3.folds == s.folds + [Slot(s, s.idx), Slot(s, s.idx + 1)];
    hide FoldStep;
    hide CatchUpStep;
    es := Then(s2, Pass(LoadFreq(hz)), Fold, [], hz);
    es := Then(Step(s1, Advance, hz), CatchUp, Flip, es, hz);
    es := Then(Step(s, Pass(s.update + 10 - s.jiffies), hz), Fold, Advance, es, hz);
    es := Then(s, Pass(0), Pass(s.update + 10 - s.jiffies), es, hz);
  }

  /** The state right after the new time, when the update began at its gate. */
  function AtNewTime(s: State, hz: nat): State
    requires s.phase.Resting? && s.jiffies <= s.update + 10
  {
    Step(Step(Step(s, Pass(s.update + 10 - s.jiffies), hz), Fold, hz), Advance, hz)
  }

  lemma WriteAtNewTime(s: State, i: nat, hz: nat) returns (r: State, w: Write)
    requires s.phase.Resting? && s.jiffies <= s.update + 10 && |s.folds| == s.idx && hz >= 2
    requires i < |s.cpus| && Delta(s.cpus[i]) != 0
    ensures i < |AtNewTime(s, hz).cpus| && Step(AtNewTime(s, hz), Event.EnterIdle(i), hz).phase.Advanced?
    ensures r == Step(Step(Step(AtNewTime(s, hz), Event.EnterIdle(i), hz), CatchUp, hz), Flip, hz)
    ensures PutOff(w) && Intended(w, hz) == |s.folds| + 1 && w.delta == Delta(s.cpus[i])
    ensures r.phase.Resting? && r.jiffies <= r.update + 10 && r.idx == s.idx + 1
    ensures r.folds == s.folds + [Slot(s, s.idx)]
    ensures Slot(r, r.idx) == Slot(s, s.idx + 1) && Slot(r, r.idx + 1) == Add(EMPTY, w)
  {
    var a := AtNewTime(s, hz);
    assert a.phase.Advanced? && a.jiffies == s.update + 10 && a.update == s.update + LoadFreq(hz);
    assert a.idx == s.idx && a.cpus == s.cpus;
    assert Slot(a, a.idx) == EMPTY && Slot(a, a.idx + 1) == Slot(s, s.idx + 1) && a.folds == s.folds + [Slot(s, s.idx)];
    hide FoldStep;
    hide AtNewTime;
    w := Write(Delta(a.cpus[i]), a.jiffies, a.update, a.phase, |a.folds|);
    var b := Step(a, Event.EnterIdle(i), hz);
    assert Slot(b, a.idx) == Add(EMPTY, w) && Slot(b, a.idx + 1) == Slot(a, a.idx + 1);
    hide EnterIdleStep;
    r := Step(Step(b, CatchUp, hz), Flip, hz);
  }

  /** It happens, at any HZ from 2 on: a CPU goes idle right after the new time, and its delta misses the next
      fold and comes in alone with the one after. */
  lemma {:induction false} PutOffHappens(s: State, i: nat, hz: nat) returns (es: seq<Event>, w: Write)
    requires s.phase.Resting? && s.jiffies <= s.update + 10 && |s.folds| == s.idx && hz >= 2
    requires i < |s.cpus| && Delta(s.cpus[i]) != 0
    ensures IsRun(s, es, hz) && PutOff(w) && Intended(w, hz) == |s.folds| + 1 && w.delta == Delta(s.cpus[i])
    ensures End(s, es, hz).folds == s.folds + [Slot(s, s.idx), Slot(s, s.idx + 1), Add(EMPTY, w)]
  {
    hide Slot;
    hide Delta;
    hide PutOff;
    hide Intended;
    hide CaughtUpTo;
    hide EnterIdleStep;
    var r;
    r, w := WriteAtNewTime(s, i, hz);
    es := TwoFolds(r, hz);
    hide End;
    hide IsRun;
    var f := Step(Step(s, Pass(s.update + 10 - s.jiffies), hz), Fold, hz);
    es := Then(Step(Step(f, Advance, hz), Event.EnterIdle(i), hz), CatchUp, Flip, es, hz);
    es := Then(f, Advance, Event.EnterIdle(i), es, hz);
    es := Then(s, Pass(s.update + 10 - s.jiffies), Fold, es, hz);
  }

  /** Also from the start on. */
  lemma {:induction false} PutOffFromStart(cpus: nat, update: nat, i: nat, nr: int, hz: nat)
      returns (es: seq<Event>, w: Write)
    requires i < cpus && nr != 0 && hz >= 2
    ensures IsRun(Start(cpus, update), es, hz) && PutOff(w) && Intended(w, hz) == 1 && w.delta == nr
    ensures End(Start(cpus, update), es, hz).folds == [EMPTY, EMPTY, Add(EMPTY, w)]
  {
    var s := Step(Start(cpus, update), Change(i, nr), hz);
    es, w := PutOffHappens(s, i, hz);
    es := Then(Start(cpus, update), Change(i, nr), Pass(0), es, hz);
  }

  /** The rest of an update, time to the next gate, and the next fold. */
  lemma FinishFold(s: State, hz: nat) returns (es: seq<Event>)
    requires s.phase.Folded? && s.jiffies == s.update + LoadFreq(hz)
    ensures IsRun(Step(s, Advance, hz), es, hz)
    ensures End(Step(s, Advance, hz), es, hz).folds == s.folds + [Slot(s, s.idx + 1)]
  {
    var a := Step(s, Advance, hz);
    var r := Step(Step(a, CatchUp, hz), Flip, hz);
    assert r == s.(update := s.jiffies, idx := s.idx + 1, phase := Resting);
    hide CatchUpStep;
    es := Then(r, Pass(10), Fold, [], hz);
    hide FoldStep;
    es := Then(a, CatchUp, Flip, es, hz);
  }

  lemma HurriedWrite(w: Write, hz: nat)
    requires hz >= 2 && w.phase.Folded? && w.jiffies == w.update + LoadFreq(hz)
    ensures Hurried(w, hz) && Intended(w, hz) == w.made + 1
  {
  }

  /** The other way round: nobody looked before the window of the next fold was open as well, and a CPU goes
      idle right after the fold.  What it wrote inside that window comes in with the next fold already. */
  lemma {:induction false} HurriedHappens(s: State, i: nat, hz: nat) returns (es: seq<Event>, w: Write)
    requires s.phase.Resting? && s.jiffies == s.update + LoadFreq(hz) && |s.folds| == s.idx && hz >= 2
    requires i < |s.cpus| && Delta(s.cpus[i]) != 0 && Slot(s, s.idx + 1) == EMPTY
    ensures IsRun(s, es, hz) && Hurried(w, hz) && Intended(w, hz) == |s.folds| + 2 && w.delta == Delta(s.cpus[i])
    ensures End(s, es, hz).folds == s.folds + [Slot(s, s.idx), Add(EMPTY, w)]
  {
    var f := Step(s, Fold, hz);
    assert f.folds == s.folds + [Slot(s, s.idx)] && Slot(f, f.idx + 1) == EMPTY && f.cpus == s.cpus && f.idx == s.idx;
    hide FoldStep;
    w := Write(Delta(s.cpus[i]), s.jiffies, s.update, Folded, |f.folds|);
    HurriedWrite(w, hz);
    hide Hurried;
    hide Intended;
    hide CaughtUpTo;
    hide IsRun;
    hide End;
    var g := Step(f, Event.EnterIdle(i), hz);
    assert Slot(g, g.idx + 1) == Add(EMPTY, w) && g.folds == f.folds && g.phase.Folded?;
    hide EnterIdleStep;
    es := FinishFold(g, hz);
    es := Then(f, Event.EnterIdle(i), Advance, es, hz);
    es := Then(s, Pass(0), Fold, es, hz);
  }

  lemma {:induction false} HurriedFromStart(cpus: nat, update: nat, i: nat, nr: int, hz: nat)
      returns (es: seq<Event>, w: Write)
    requires i < cpus && nr != 0 && hz >= 2
    ensures IsRun(Start(cpus, update), es, hz) && Hurried(w, hz) && Intended(w, hz) == 2 && w.delta == nr
    ensures End(Start(cpus, update), es, hz).folds == [EMPTY, Add(EMPTY, w)]
  {
    var s := Step(Step(Start(cpus, update), Change(i, nr), hz), Pass(update + LoadFreq(hz)), hz);
    es, w := HurriedHappens(s, i, hz);
    es := Then(Start(cpus, update), Change(i, nr), Pass(update + LoadFreq(hz)), es, hz);
  }

  // ---------------------------------------------------------------- catching up

  /** One period less to skip. */
  lemma MissedLess(jiffies: nat, update: int, hz: nat)
    requires jiffies >= update + 10
    ensures Missed(jiffies, update, hz) == 1 + Missed(jiffies, update + LoadFreq(hz), hz)
  {
    var delta, freq := jiffies - update - 10, LoadFreq(hz);
    if delta >= freq {
      OneLess(delta, freq);
    } else {
      Quotient(delta, freq, 0, delta);
    }
  }

  lemma {:induction false} TimesMore(a: nat, b: nat, f: nat)
    requires a < b
    ensures a * f + f <= b * f
  {
    if a < b - 1 {
      TimesMore(a, b - 1, f);
    }
    assert b * f == (b - 1) * f + f;
  }

  lemma Quotient(a: nat, f: nat, q: nat, rest: nat)
    requires a == q * f + rest && rest < f
    ensures a / f == q
  {
    var p := a / f;
    assert a == p * f + a % f;
    if p > q {
      TimesMore(q, p, f);
    } else if p < q {
      TimesMore(p, q, f);
    }
  }

  lemma OneLess(a: nat, f: nat)
    requires a >= f > 0
    ensures a / f == 1 + (a - f) / f
  {
    var q := (a - f) / f;
    assert a - f == q * f + (a - f) % f;
    assert (q + 1) * f == q * f + f;
    Quotient(a, f, q + 1, (a - f) % f);
  }

  function Periods(n: nat, hz: nat): int {
    n * LoadFreq(hz)
  }

  lemma PeriodsMore(n: nat, hz: nat)
    ensures Periods(n + 1, hz) == Periods(n, hz) + LoadFreq(hz) && Periods(0, hz) == 0
  {
  }

  /** The code computes at once how many periods that are.  Afterwards the gate is closed again, however long
      nobody looked, and not more periods are skipped than have gone by. */
  lemma {:induction false} CaughtUpGate(jiffies: nat, update: int, hz: nat)
    ensures var u := CaughtUpTo(jiffies, update, hz);
            && u == update + Missed(jiffies, update, hz) * LoadFreq(hz) && jiffies < u + 10
            && (Missed(jiffies, update, hz) > 0 ==> u <= jiffies - 10 + LoadFreq(hz))
    decreases jiffies - update
  {
    assert Periods(Missed(jiffies, update, hz), hz) == Missed(jiffies, update, hz) * LoadFreq(hz);
    if jiffies >= update + 10 {
      CaughtUpGate(jiffies, update + LoadFreq(hz), hz);
      MissedLess(jiffies, update, hz);
      PeriodsMore(Missed(jiffies, update + LoadFreq(hz), hz), hz);
    } else {
      PeriodsMore(0, hz);
    }
  }

  // ---------------------------------------------------------------- the variables themselves

  class LoadStats {
    const hz: nat
    var jiffies: nat
    var cpus: seq<Cpu>
    var tasks: int
    var idle: array<int>
    var idx: nat
    var update: int
    var avenrun: seq<nat>
    ghost var phase: Phase
    ghost var holds: seq<seq<Write>>
    ghost var writes: seq<Write>
    ghost var folds: seq<Bucket>

    ghost predicate Valid()
      reads this
    {
      idle.Length == |holds| == 2 && |avenrun| == 3
    }

    ghost function Abs(): State
      requires Valid()
      reads this, idle
    {
      State(jiffies, cpus, tasks, Bucket(idle[0], holds[0]), Bucket(idle[1], holds[1]), idx, update, phase,
            writes, folds)
    }

    constructor (n: nat, hz: nat)
      ensures this.hz == hz && fresh(idle) && Valid()
      ensures Abs() == Start(n, LoadFreq(hz)) && Accounted(Abs()) && InTurn(Abs()) && OncePlaced(Abs())
    {
      var buckets := new int[2](i => 0);
      this.hz, jiffies, cpus, tasks, idle := hz, 0, seq(n, i => Cpu(0, 0, LoadFreq(hz))), 0, buckets;
      idx, update, avenrun, phase, holds, writes, folds := 0, LoadFreq(hz), [0, 0, 0], Resting, [[], []], [], [];
      new;
      NoReports(n, LoadFreq(hz));
    }

    /** calc_load_fold_active. */
    method FoldActive(i: nat) returns (delta: int)
      requires i < |cpus| && Valid()
      modifies this`cpus
      ensures Valid() && Abs() == Reported(old(Abs()), i) && delta == Delta(old(cpus)[i])
    {
      var nrActive := cpus[i].nrActive;
      delta := 0;
      if nrActive != cpus[i].calcLoadActive {
        delta := nrActive - cpus[i].calcLoadActive;
        cpus := cpus[i := cpus[i].(calcLoadActive := nrActive)];
      }
    }

    /** calc_load_enter_idle. */
    method EnterIdle(i: nat)
      requires i < |cpus| && Valid()
      modifies this`cpus, this`holds, this`writes, idle
      ensures Valid() && Abs() == Step(old(Abs()), Event.EnterIdle(i), hz)
      ensures cpus == old(cpus)[i := old(cpus[i]).(calcLoadActive := old(cpus[i].nrActive))]
      ensures var w := (if jiffies < update then idx else idx + 1) % 2;
              && idle[w] == old(idle[w]) + old(cpus[i].nrActive) - old(cpus[i].calcLoadActive)
              && idle[1 - w] == old(idle[1 - w])
    {
      var delta := FoldActive(i);
      if delta != 0 {
        var w := idx;
        if jiffies >= update {
          w := w + 1;
        }
        idle[w % 2] := idle[w % 2] + delta;
        ghost var entry := Write(delta, jiffies, update, phase, |folds|);
        holds, writes := holds[w % 2 := holds[w % 2] + [entry]], writes + [entry];
      }
    }

    /** calc_load_exit_idle. */
    method ExitIdle(i: nat)
      requires i < |cpus| && Valid()
      modifies this`cpus
      ensures Valid() && Abs() == Step(old(Abs()), Event.ExitIdle(i), hz)
      ensures cpus == old(cpus)[i := old(cpus[i]).(update := if jiffies < old(cpus[i].update) then old(cpus[i].update)
                                                             else if jiffies < update + 10 then update + 5 * hz + 1
                                                             else update)]
    {
      if jiffies < cpus[i].update {
        return;
      }
      var u := update;
      if jiffies < u + 10 {
        u := u + LoadFreq(hz);
      }
      cpus := cpus[i := cpus[i].(update := u)];
    }

    /** calc_load_account_active. */
    method AccountActive(i: nat)
      requires i < |cpus| && Valid()
      modifies this`cpus, this`tasks
      ensures Valid() && Abs() == Step(old(Abs()), Event.AccountActive(i), hz)
      ensures jiffies < old(cpus[i].update) ==> cpus == old(cpus) && tasks == old(tasks)
      ensures jiffies >= old(cpus[i].update) ==>
                && cpus == old(cpus)[i := Cpu(old(cpus[i].nrActive), old(cpus[i].nrActive),
                                              old(cpus[i].update) + 5 * hz + 1)]
                && tasks == old(tasks) + old(cpus[i].nrActive) - old(cpus[i].calcLoadActive)
    {
      if jiffies < cpus[i].update {
        return;
      }
      var delta := FoldActive(i);
      if delta != 0 {
        tasks := tasks + delta;
      }
      cpus := cpus[i := cpus[i].(update := cpus[i].update + LoadFreq(hz))];
    }

    /** calc_global_load_remove. */
    method GlobalLoadRemove(i: nat)
      requires i < |cpus| && Valid()
      modifies this`cpus, this`tasks
      ensures Valid() && Abs() == Step(old(Abs()), Remove(i), hz)
      ensures tasks == old(tasks) - old(cpus[i].calcLoadActive)
      ensures cpus == old(cpus)[i := old(cpus[i]).(calcLoadActive := 0)]
    {
      tasks := tasks - cpus[i].calcLoadActive;
      cpus := cpus[i := cpus[i].(calcLoadActive := 0)];
    }

    /** calc_load_fold_idle, and the addition of what it finds. */
    method FoldIdle()
      requires Valid() && CanHappen(Abs(), Fold)
      modifies this`tasks, this`phase, this`holds, this`folds, idle
      ensures Valid() && Abs() == Step(old(Abs()), Fold, hz)
      ensures tasks == old(tasks) + old(idle[idx % 2]) && idle[idx % 2] == 0
      ensures idle[(idx + 1) % 2] == old(idle[(idx + 1) % 2])
    {
      var delta := 0;
      folds, holds, phase := folds + [Slot(Abs(), idx)], holds[idx % 2 := []], Folded;
      if idle[idx % 2] != 0 {
        delta := idle[idx % 2];
        idle[idx % 2] := 0;
      }
      if delta != 0 {
        tasks := tasks + delta;
      }
    }

    /** calc_global_nohz, without the flip. */
    method GlobalNohz()
      requires Valid() && phase.Advanced?
      modifies this`update, this`avenrun, this`phase
      ensures Valid() && Abs() == Step(old(Abs()), CatchUp, hz) && jiffies < update + 10
      ensures avenrun == Decayed(old(avenrun), Active(tasks), old(Missed(jiffies, update, hz)))
    {
      CaughtUpGate(jiffies, update, hz);
      if jiffies >= update + 10 {
        var delta := jiffies - update - 10;
        var n := 1 + delta / LoadFreq(hz);
        var active := Active(tasks);
        var a0 := LoadDecay.CalcLoadNow(avenrun[0], EXP_1, active, n);
        var a1 := LoadDecay.CalcLoadNow(avenrun[1], EXP_5, active, n);
        var a2 := LoadDecay.CalcLoadNow(avenrun[2], EXP_15, active, n);
        avenrun := [a0, a1, a2];
        update := update + n * LoadFreq(hz);
      }
      phase := CaughtUp;
    }

    method DecayOnce()
      requires Valid()
      modifies this`avenrun
      ensures Valid() && avenrun == OnePeriod(old(avenrun), Active(tasks))
    {
      var active := Active(tasks);
      avenrun := [LoadDecay.CalcLoad(avenrun[0], EXP_1, active),
                  LoadDecay.CalcLoad(avenrun[1], EXP_5, active),
                  LoadDecay.CalcLoad(avenrun[2], EXP_15, active)];
    }

    /** calc_global_load, once the gate is open. */
    method GlobalUpdate()
      requires Valid() && phase.Resting? && jiffies >= update + 10
      modifies this`tasks, this`phase, this`holds, this`folds, this`update, this`avenrun, this`idx, idle
      ensures Valid() && Abs() == Updated(old(Abs()), hz) && jiffies < update + 10
      ensures tasks == old(tasks) + old(idle[idx % 2]) && idx == old(idx) + 1
      ensures idle[old(idx) % 2] == 0 && idle[idx % 2] == old(idle[(idx + 1) % 2])
      ensures avenrun == Decayed(OnePeriod(old(avenrun), Active(tasks)), Active(tasks), MissedAfter(old(Abs()), hz))
    {
      hide OnePeriod;
      hide Decayed;
      hide CatchUpStep;
      hide FoldStep;
      hide Missed;
      FoldIdle();
      DecayOnce();
      update, phase := update + LoadFreq(hz), Advanced;
      GlobalNohz();
      idx, phase := idx + 1, Resting;
    }

    /** calc_global_load: one fold, one period of decay and those that were missed, and the buckets change
        places; afterwards the gate is closed. */
    method CalcGlobalLoad()
      requires Valid() && phase.Resting?
      modifies this`tasks, this`phase, this`holds, this`folds, this`update, this`avenrun, this`idx, idle
      ensures Valid() && jiffies < update + 10
      ensures old(jiffies < update + 10) ==> Abs() == old(Abs()) && avenrun == old(avenrun)
      ensures old(jiffies >= update + 10) ==>
                && Abs() == Updated(old(Abs()), hz)
                && avenrun == Decayed(OnePeriod(old(avenrun), Active(tasks)), Active(tasks),
                                      MissedAfter(old(Abs()), hz))
                && (jiffies < old(update) + 5 * hz + 11 ==>
                      Weighed(old(avenrun)[0], tasks, 1884, avenrun[0])
                      && Weighed(old(avenrun)[1], tasks, 2014, avenrun[1])
                      && Weighed(old(avenrun)[2], tasks, 2037, avenrun[2]))
                && tasks == old(tasks) + old(idle[idx % 2]) && idx == old(idx) + 1
                && idle[old(idx) % 2] == 0 && idle[idx % 2] == old(idle[(idx + 1) % 2])
    {
      hide OnePeriod;
      hide Decayed;
      hide Updated;
      hide MissedAfter;
      if jiffies < update + 10 {
        return;
      }
      NothingSkipped(Abs(), hz);
      hide Weighed;
      GlobalUpdate();
      AveragesWeighed(old(avenrun), tasks);
    }
  }

  lemma NothingSkipped(s: State, hz: nat)
    requires CanHappen(s, Fold)
    ensures s.jiffies < s.update + 5 * hz + 11 ==> MissedAfter(s, hz) == 0
    ensures forall r: seq<nat>, active :: |r| == 3 ==> Decayed(r, active, 0) == r
  {
  }

  /** The active count in fixed point, nothing below zero. */
  function Active(tasks: int): nat {
    if tasks > 0 then tasks * LoadDecay.FIXED_1 else 0
  }

  function OnePeriod(a: seq<nat>, active: nat): (r: seq<nat>)
    requires |a| == 3
    ensures |r| == 3
  {
    [LoadDecay.CalcLoad(a[0], EXP_1, active), LoadDecay.CalcLoad(a[1], EXP_5, active),
     LoadDecay.CalcLoad(a[2], EXP_15, active)]
  }

  /** After one period an average is the old one and the active tasks in the proportion of its decay, in units of
      1/2048 and rounded to the nearest. */
  ghost predicate Weighed(average: nat, tasks: int, exp: nat, r: nat)
    requires exp <= 2048
  {
    -1024 <= r * 2048 - (average * exp + (if tasks > 0 then tasks else 0) * 2048 * (2048 - exp)) <= 1024
  }

  lemma AveragesWeighed(a: seq<nat>, tasks: int)
    requires |a| == 3
    ensures var r := OnePeriod(a, Active(tasks));
            Weighed(a[0], tasks, 1884, r[0]) && Weighed(a[1], tasks, 2014, r[1]) && Weighed(a[2], tasks, 2037, r[2])
  {
    OneWeighed(a[0], tasks, 1884);
    OneWeighed(a[1], tasks, 2014);
    OneWeighed(a[2], tasks, 2037);
    hide LoadDecay.CalcLoad;
    hide Weighed;
  }

  lemma OneWeighed(average: nat, tasks: int, exp: nat)
    requires exp <= 2048
    ensures Weighed(average, tasks, exp, LoadDecay.CalcLoad(average, exp, Active(tasks)))
  {
    var num := average * exp + Active(tasks) * (2048 - exp);
    assert LoadDecay.CalcLoad(average, exp, Active(tasks)) == (num + 1024) / 2048;
  }

  /** The averages after n periods at once. */
  function Decayed(a: seq<nat>, active: nat, n: nat): seq<nat>
    requires |a| == 3
  {
    if n == 0 then a
    else [LoadDecay.CalcLoadN(a[0], EXP_1, active, n), LoadDecay.CalcLoadN(a[1], EXP_5, active, n),
          LoadDecay.CalcLoadN(a[2], EXP_15, active, n)]
  }

  /** A whole update with nothing in between. */
  function Updated(s: State, hz: nat): State
    requires CanHappen(s, Fold)
  {
    Step(Step(Step(Step(s, Fold, hz), Advance, hz), CatchUp, hz), Flip, hz)
  }

  function MissedAfter(s: State, hz: nat): nat
    requires CanHappen(s, Fold)
  {
    Missed(s.jiffies, s.update + LoadFreq(hz), hz)
  }
}
