/** The Burger Buddies problem: cooks, cashiers and customers who meet at semaphores.

    Every thread is a program counter; a step is one semaphore operation of one thread.  Nothing is assumed
    about the order in which threads run, nor that any of them is treated fairly.
  */
module BurgerBuddies {

  datatype Cook =
    | AtRack             // about to wait for `empty`
    | Cooking            // about to post `full`

  datatype Cashier =
    | AtCounter          // about to wait for `customers`
    | Fetching           // about to wait for `full`
    | Taken              // about to post `empty`
    | Serving            // about to post `order`
    | Tidying            // about to post `cashier`

  datatype Customer =
    | Outside            // about to wait for `customerMutex`
    | Entering           // about to post `customerMutex`
    | Entered            // about to post `customers`
    | Queueing           // about to wait for `cashier`
    | Ordered            // about to wait for `order`
    | Gone

  datatype State = State(
    cooks: seq<Cook>, cashiers: seq<Cashier>, patrons: seq<Customer>,
    empty: nat, full: nat, customers: nat, cashier: nat, order: nat, customerMutex: nat,
    handed: nat)         // burgers taken off the rack, ever

  datatype Thread = CookNo(i: nat) | CashierNo(i: nat) | CustomerNo(i: nat)

  /** The threads main creates, and the semaphores it initialises. */
  function Start(cooksNum: nat, cashiersNum: nat, customersNum: nat, rackSize: nat): State {
    State(seq(cooksNum, i => AtRack), seq(cashiersNum, i => AtCounter), seq(customersNum, i => Outside),
          rackSize, 0, 0, cashiersNum, 0, 1, 0)
  }

  /** The thread exists and its next operation does not block. */
  predicate CanStep(s: State, t: Thread) {
    match t
    case CookNo(i) =>
      i < |s.cooks| && (match s.cooks[i] case AtRack => s.empty > 0 case Cooking => true)
    case CashierNo(i) =>
      i < |s.cashiers| &&
      (match s.cashiers[i]
       case AtCounter => s.customers > 0
       case Fetching => s.full > 0
       case Taken => true
       case Serving => true
       case Tidying => true)
    case CustomerNo(i) =>
      i < |s.patrons| &&
      (match s.patrons[i]
       case Outside => s.customerMutex > 0
       case Entering => true
       case Entered => true
       case Queueing => s.cashier > 0
       case Ordered => s.order > 0
       case Gone => false)
  }

  function CookStep(s: State, i: nat): State
    requires CanStep(s, CookNo(i))
  {
    match s.cooks[i]
    case AtRack => s.(cooks := s.cooks[i := Cooking], empty := s.empty - 1)
    case Cooking => s.(cooks := s.cooks[i := AtRack], full := s.full + 1)
  }

  function CashierStep(s: State, i: nat): State
    requires CanStep(s, CashierNo(i))
  {
    match s.cashiers[i]
    case AtCounter => s.(cashiers := s.cashiers[i := Fetching], customers := s.customers - 1)
    case Fetching => s.(cashiers := s.cashiers[i := Taken], full := s.full - 1, handed := s.handed + 1)
    case Taken => s.(cashiers := s.cashiers[i := Serving], empty := s.empty + 1)
    case Serving => s.(cashiers := s.cashiers[i := Tidying], order := s.order + 1)
    case Tidying => s.(cashiers := s.cashiers[i := AtCounter], cashier := s.cashier + 1)
  }

  function CustomerStep(s: State, i: nat): State
    requires CanStep(s, CustomerNo(i))
  {
    match s.patrons[i]
    case Outside => s.(patrons := s.patrons[i := Entering], customerMutex := s.customerMutex - 1)
    case Entering => s.(patrons := s.patrons[i := Entered], customerMutex := s.customerMutex + 1)
    case Entered => s.(patrons := s.patrons[i := Queueing], customers := s.customers + 1)
    case Queueing => s.(patrons := s.patrons[i := Ordered], cashier := s.cashier - 1)
    case Ordered => s.(patrons := s.patrons[i := Gone], order := s.order - 1)
  }

  function Step(s: State, t: Thread): State
    requires CanStep(s, t)
  {
    match t
    case CookNo(i) => CookStep(s, i)
    case CashierNo(i) => CashierStep(s, i)
    case CustomerNo(i) => CustomerStep(s, i)
  }

  // ---------------------------------------------------------------- how many threads are where

  function Count<T(==)>(s: seq<T>, x: T): nat {
    if s == [] then 0 else Count(s[..|s| - 1], x) + if s[|s| - 1] == x then 1 else 0
  }

  lemma {:induction false} CountUpdate<T>(s: seq<T>, i: nat, y: T, x: T)
    requires i < |s|
    ensures Count(s[i := y], x) == Count(s, x) - (if s[i] == x then 1 else 0) + if y == x then 1 else 0
  {
    var n := |s| - 1;
    if i < n {
      CountUpdate(s[..n], i, y, x);
      assert s[i := y][..n] == s[..n][i := y];
    } else {
      assert s[i := y][..n] == s[..n];
    }
  }

  lemma {:induction false} CountSame<T>(n: nat, y: T, x: T)
    ensures Count(seq(n, i => y), x) == if x == y then n else 0
  {
    if n > 0 {
      CountSame(n - 1, y, x);
      assert seq(n, i => y)[..n - 1] == seq(n - 1, i => y);
    }
  }

  lemma {:induction false} Somewhere<T>(s: seq<T>, x: T) returns (i: nat)
    requires Count(s, x) > 0
    ensures i < |s| && s[i] == x
  {
    i := |s| - 1;
    if s[i] != x {
      i := Somewhere(s[..i], x);
    }
  }

  lemma {:induction false} CooksAll(s: seq<Cook>)
    ensures Count(s, AtRack) + Count(s, Cooking) == |s|
  {
    if s != [] {
      CooksAll(s[..|s| - 1]);
      assert s[|s| - 1].AtRack? || s[|s| - 1].Cooking?;
    }
  }

  lemma {:induction false} CashiersAll(s: seq<Cashier>)
    ensures Count(s, AtCounter) + Count(s, Fetching) + Count(s, Taken) + Count(s, Serving) + Count(s, Tidying) == |s|
  {
    if s != [] {
      CashiersAll(s[..|s| - 1]);
      var x := s[|s| - 1];
      assert x.AtCounter? || x.Fetching? || x.Taken? || x.Serving? || x.Tidying?;
    }
  }

  lemma {:induction false} CustomersAll(s: seq<Customer>)
    ensures Count(s, Outside) + Count(s, Entering) + Count(s, Entered) + Count(s, Queueing) + Count(s, Ordered)
            + Count(s, Gone) == |s|
  {
    if s != [] {
      CustomersAll(s[..|s| - 1]);
      var x := s[|s| - 1];
      assert x.Outside? || x.Entering? || x.Entered? || x.Queueing? || x.Ordered? || x.Gone?;
    }
  }

  /** The numbers of threads at each place, and the semaphores. */
  datatype Tally = Tally(
    atRack: nat, cooking: nat,
    atCounter: nat, fetching: nat, taken: nat, serving: nat, tidying: nat,
    outside: nat, entering: nat, entered: nat, queueing: nat, ordered: nat, gone: nat,
    empty: int, full: int, customers: int, cashier: int, order: int, customerMutex: int, handed: int)

  function TallyOf(s: State): Tally {
    Tally(Count(s.cooks, AtRack), Count(s.cooks, Cooking),
          Count(s.cashiers, AtCounter), Count(s.cashiers, Fetching), Count(s.cashiers, Taken),
          Count(s.cashiers, Serving), Count(s.cashiers, Tidying),
          Count(s.patrons, Outside), Count(s.patrons, Entering), Count(s.patrons, Entered),
          Count(s.patrons, Queueing), Count(s.patrons, Ordered), Count(s.patrons, Gone),
          s.empty, s.full, s.customers, s.cashier, s.order, s.customerMutex, s.handed)
  }

  /** Orders that a cashier has accepted. */
  function Accepted(c: Tally): int {
    c.fetching + c.handed
  }

  /** What the semaphores add up to. */
  ghost predicate Balanced(c: Tally, cooksNum: nat, cashiersNum: nat, customersNum: nat, rackSize: nat) {
    && c.atRack + c.cooking == cooksNum
    && c.atCounter + c.fetching + c.taken + c.serving + c.tidying == cashiersNum
    && c.outside + c.entering + c.entered + c.queueing + c.ordered + c.gone == customersNum
    && c.empty + c.full + c.cooking + c.taken == rackSize
    && c.customerMutex + c.entering == 1
    && c.customers + Accepted(c) == c.queueing + c.ordered + c.gone
    && c.order + c.gone == c.handed - c.taken - c.serving
    && c.cashier + c.ordered + c.gone == cashiersNum + c.handed - c.taken - c.serving - c.tidying
  }

  ghost predicate Inv(s: State, cooksNum: nat, cashiersNum: nat, customersNum: nat, rackSize: nat) {
    Balanced(TallyOf(s), cooksNum, cashiersNum, customersNum, rackSize)
  }

  /** The operations still to come: what the customers have left, what the cashiers have left for orders
      accepted and to be accepted, and what the cooks have left until the rack is full for good. */
  function Left(c: Tally, customersNum: nat, rackSize: nat): int {
    5 * c.outside + 4 * c.entering + 3 * c.entered + 2 * c.queueing + c.ordered
     + 5 * (customersNum - Accepted(c)) + 4 * c.fetching + 3 * c.taken + 2 * c.serving + c.tidying
     + 2 * (customersNum + rackSize - c.full - c.handed - c.cooking) + c.cooking
  }

  lemma StartBalanced(cooksNum: nat, cashiersNum: nat, customersNum: nat, rackSize: nat)
    ensures Inv(Start(cooksNum, cashiersNum, customersNum, rackSize), cooksNum, cashiersNum, customersNum, rackSize)
    ensures Left(TallyOf(Start(cooksNum, cashiersNum, customersNum, rackSize)), customersNum, rackSize)
         == 12 * customersNum + 2 * rackSize
  {
    hide Count;
    CountSame(cooksNum, AtRack, AtRack);
    CountSame(cooksNum, AtRack, Cooking);
    CountSame(cashiersNum, AtCounter, AtCounter);
    CountSame(cashiersNum, AtCounter, Fetching);
    CountSame(cashiersNum, AtCounter, Taken);
    CountSame(cashiersNum, AtCounter, Serving);
    CountSame(cashiersNum, AtCounter, Tidying);
    CountSame(customersNum, Outside, Outside);
    CountSame(customersNum, Outside, Entering);
    CountSame(customersNum, Outside, Entered);
    CountSame(customersNum, Outside, Queueing);
    CountSame(customersNum, Outside, Ordered);
    CountSame(customersNum, Outside, Gone);
  }

  lemma CookKeeps(s: State, i: nat, k: nat, m: nat, n: nat, r: nat)
    requires Inv(s, k, m, n, r) && CanStep(s, CookNo(i))
    ensures Inv(CookStep(s, i), k, m, n, r)
    ensures Left(TallyOf(CookStep(s, i)), n, r) == Left(TallyOf(s), n, r) - 1
  {
    hide Count;
    var y := CookStep(s, i).cooks[i];
    CountUpdate(s.cooks, i, y, AtRack);
    CountUpdate(s.cooks, i, y, Cooking);
  }

  lemma CashierKeeps(s: State, i: nat, k: nat, m: nat, n: nat, r: nat)
    requires Inv(s, k, m, n, r) && CanStep(s, CashierNo(i))
    ensures Inv(CashierStep(s, i), k, m, n, r)
    ensures Left(TallyOf(CashierStep(s, i)), n, r) == Left(TallyOf(s), n, r) - 1
  {
    hide Count;
    var y := CashierStep(s, i).cashiers[i];
    CountUpdate(s.cashiers, i, y, AtCounter);
    CountUpdate(s.cashiers, i, y, Fetching);
    CountUpdate(s.cashiers, i, y, Taken);
    CountUpdate(s.cashiers, i, y, Serving);
    CountUpdate(s.cashiers, i, y, Tidying);
  }

  lemma CustomerKeeps(s: State, i: nat, k: nat, m: nat, n: nat, r: nat)
    requires Inv(s, k, m, n, r) && CanStep(s, CustomerNo(i))
    ensures Inv(CustomerStep(s, i), k, m, n, r)
    ensures Left(TallyOf(CustomerStep(s, i)), n, r) == Left(TallyOf(s), n, r) - 1
  {
    hide Count;
    var y := CustomerStep(s, i).patrons[i];
    CountUpdate(s.patrons, i, y, Outside);
    CountUpdate(s.patrons, i, y, Entering);
    CountUpdate(s.patrons, i, y, Entered);
    CountUpdate(s.patrons, i, y, Queueing);
    CountUpdate(s.patrons, i, y, Ordered);
    CountUpdate(s.patrons, i, y, Gone);
  }

  /** Every operation keeps the balance, and uses up exactly one of those left. */
  lemma {:induction false} StepKeeps(s: State, t: Thread, k: nat, m: nat, n: nat, r: nat)
    requires Inv(s, k, m, n, r) && CanStep(s, t)
    ensures Inv(Step(s, t), k, m, n, r)
    ensures Left(TallyOf(Step(s, t)), n, r) == Left(TallyOf(s), n, r) - 1
  {
    hide Inv;
    match t {
      case CookNo(i) => CookKeeps(s, i, k, m, n, r);
      case CashierNo(i) => CashierKeeps(s, i, k, m, n, r);
      case CustomerNo(i) => CustomerKeeps(s, i, k, m, n, r);
    }
  }

  /** The rack: every slot is free, filled, being filled, or being emptied. */
  lemma RackConserved(s: State, k: nat, m: nat, n: nat, r: nat)
    requires Inv(s, k, m, n, r)
    ensures s.empty + s.full + Count(s.cooks, Cooking) + Count(s.cashiers, Taken) == r
  {
  }

  // ---------------------------------------------------------------- where it can end

  ghost predicate Stuck(s: State) {
    forall t :: !CanStep(s, t)
  }

  ghost predicate Finished(s: State, customersNum: nat, rackSize: nat) {
    && (forall i :: 0 <= i < |s.patrons| ==> s.patrons[i] == Gone)
    && (forall i :: 0 <= i < |s.cashiers| ==> s.cashiers[i] == AtCounter)
    && (forall i :: 0 <= i < |s.cooks| ==> s.cooks[i] == AtRack)
    && s.handed == customersNum && s.full == rackSize && s.empty == 0
  }

  /** No thread waits where its next operation could go through. */
  ghost predicate Blocked(c: Tally) {
    && c.cooking == c.taken == c.serving == c.tidying == c.entering == c.entered == 0
    && (c.atRack > 0 ==> c.empty == 0)
    && (c.atCounter > 0 ==> c.customers == 0)
    && (c.fetching > 0 ==> c.full == 0)
    && (c.outside > 0 ==> c.customerMutex == 0)
    && (c.queueing > 0 ==> c.cashier == 0)
    && (c.ordered > 0 ==> c.order == 0)
  }

  lemma CookBlocked(s: State, x: Cook)
    requires Stuck(s) && Count(s.cooks, x) > 0
    ensures x == AtRack && s.empty == 0
  {
    var i := Somewhere(s.cooks, x);
    assert !CanStep(s, CookNo(i));
  }

  lemma CashierBlocked(s: State, x: Cashier)
    requires Stuck(s) && Count(s.cashiers, x) > 0
    ensures (x == AtCounter && s.customers == 0) || (x == Fetching && s.full == 0)
  {
    var i := Somewhere(s.cashiers, x);
    assert !CanStep(s, CashierNo(i));
  }

  lemma CustomerBlocked(s: State, x: Customer)
    requires Stuck(s) && Count(s.patrons, x) > 0
    ensures match x
            case Outside => s.customerMutex == 0
            case Entering => false
            case Entered => false
            case Queueing => s.cashier == 0
            case Ordered => s.order == 0
            case Gone => true
  {
    var i := Somewhere(s.patrons, x);
    assert !CanStep(s, CustomerNo(i));
  }

  lemma StuckBlocked(s: State)
    requires Stuck(s)
    ensures Blocked(TallyOf(s))
  {
    hide Count;
    hide Stuck;
    forall x | Count(s.cooks, x) > 0 ensures x == AtRack && s.empty == 0 {
      CookBlocked(s, x);
    }
    forall x | Count(s.cashiers, x) > 0
      ensures (x == AtCounter && s.customers == 0) || (x == Fetching && s.full == 0)
    {
      CashierBlocked(s, x);
    }
    forall x | Count(s.patrons, x) > 0
      ensures x != Entering && x != Entered && (x == Outside ==> s.customerMutex == 0)
              && (x == Queueing ==> s.cashier == 0) && (x == Ordered ==> s.order == 0)
    {
      CustomerBlocked(s, x);
    }
  }

  /** The numbers leave one way to be blocked: everyone served, and nothing left to do. */
  lemma BlockedIsDone(c: Tally, k: nat, m: nat, n: nat, r: nat)
    requires Balanced(c, k, m, n, r) && Blocked(c) && k > 0 && m > 0 && r > 0
    ensures c.gone == n && c.atCounter == m && c.atRack == k && c.handed == n && c.full == r && c.empty == 0
    ensures Left(c, n, r) == 0
  {
  }

  lemma {:induction false} AllThere<T>(s: seq<T>, x: T)
    requires Count(s, x) == |s|
    ensures forall i :: 0 <= i < |s| ==> s[i] == x
  {
    if s != [] {
      CountAtMost(s[..|s| - 1], x);
      AllThere(s[..|s| - 1], x);
      forall i | 0 <= i < |s| ensures s[i] == x {
        assert i < |s| - 1 ==> s[..|s| - 1][i] == s[i];
      }
    }
  }

  lemma {:induction false} CountAtMost<T>(s: seq<T>, x: T)
    ensures Count(s, x) <= |s|
  {
    if s != [] {
      CountAtMost(s[..|s| - 1], x);
    }
  }

  /** Nobody is ever stuck while a customer remains. */
  lemma {:induction false} StuckMeansFinished(s: State, k: nat, m: nat, n: nat, r: nat)
    requires Inv(s, k, m, n, r) && k > 0 && m > 0 && r > 0 && Stuck(s)
    ensures Finished(s, n, r) && Left(TallyOf(s), n, r) == 0
  {
    StuckBlocked(s);
    BlockedIsDone(TallyOf(s), k, m, n, r);
    CooksAll(s.cooks);
    CashiersAll(s.cashiers);
    CustomersAll(s.patrons);
    AllThere(s.cooks, AtRack);
    AllThere(s.cashiers, AtCounter);
    AllThere(s.patrons, Gone);
  }

  // ---------------------------------------------------------------- runs

  ghost predicate IsRun(s: State, ts: seq<Thread>)
    decreases |ts|
  {
    ts == [] || (CanStep(s, ts[0]) && IsRun(Step(s, ts[0]), ts[1..]))
  }

  ghost function End(s: State, ts: seq<Thread>): State
    requires IsRun(s, ts)
    decreases |ts|
  {
    if ts == [] then s else End(Step(s, ts[0]), ts[1..])
  }

  lemma {:induction false} RunKeeps(s: State, ts: seq<Thread>, k: nat, m: nat, n: nat, r: nat)
    requires Inv(s, k, m, n, r) && IsRun(s, ts)
    ensures Inv(End(s, ts), k, m, n, r)
    ensures Left(TallyOf(End(s, ts)), n, r) == Left(TallyOf(s), n, r) - |ts|
    decreases |ts|
  {
    if ts != [] {
      hide Inv;
      hide Left;
      hide TallyOf;
      StepKeeps(s, ts[0], k, m, n, r);
      RunKeeps(Step(s, ts[0]), ts[1..], k, m, n, r);
    }
  }

  lemma LeftNonNegative(c: Tally, k: nat, m: nat, n: nat, r: nat)
    requires Balanced(c, k, m, n, r) && c.empty >= 0 && c.customers >= 0 && c.order >= 0 && c.full >= 0 && c.handed >= 0
    ensures Left(c, n, r) >= 0
  {
  }

  /** Whatever the numbers and the scheduling: no run is longer than 12 operations a customer and 2 a slot of
      the rack, and a run that can go no further has exactly that length and ends with every customer
      gone, one burger handed over for each, and the rack full. */
  lemma {:induction false} EveryoneServed(cooksNum: nat, cashiersNum: nat, customersNum: nat, rackSize: nat,
                                         ts: seq<Thread>)
    requires cooksNum > 0 && cashiersNum > 0 && rackSize > 0
    requires IsRun(Start(cooksNum, cashiersNum, customersNum, rackSize), ts)
    ensures |ts| <= 12 * customersNum + 2 * rackSize
    ensures var e := End(Start(cooksNum, cashiersNum, customersNum, rackSize), ts);
            Stuck(e) ==> Finished(e, customersNum, rackSize) && |ts| == 12 * customersNum + 2 * rackSize
  {
    var s := Start(cooksNum, cashiersNum, customersNum, rackSize);
    StartBalanced(cooksNum, cashiersNum, customersNum, rackSize);
    RunKeeps(s, ts, cooksNum, cashiersNum, customersNum, rackSize);
    var e := End(s, ts);
    LeftNonNegative(TallyOf(e), cooksNum, cashiersNum, customersNum, rackSize);
    if Stuck(e) {
      StuckMeansFinished(e, cooksNum, cashiersNum, customersNum, rackSize);
    }
  }
}
