/** The SQLite connection pool: a semaphore, a vector of connections and a few
    counters, used by any number of concurrent callers. */
module ConnectionPool {
  import opened Wrappers

  type Conn = nat

  /** The pool's shared fields. `sealed` is the semaphore's own closed flag. */
  datatype Shared = Shared(
    conns: seq<Conn>,
    permits: nat,
    inUse: int,
    waiting: int,
    closed: bool,
    sealed: bool)

  datatype Outcome = Busy | Closed | Exhausted | Cancelled | Finished

  /** Where one caller of `run` is; each move between phases is one atomic
      operation on the shared fields. */
  datatype Phase =
    | Checked                     // saw `closed == false`
    | Queued                      // counted in `waiting`, parked on the semaphore
    | Permitted                   // holds a permit
    | Popped(conn: Conn)          // took a connection, not yet counted in `inUse`
    | Running(conn: Conn)         // the closure owns the lease
    | Dropping(conn: Conn)        // lease dropped, no longer counted in `inUse`
    | Pushing(conn: Conn)         // `release` saw `closed == false`
    | Refilling                   // pushed, permit not yet returned
    | Done(outcome: Outcome)

  datatype State = State(pool: Shared, callers: map<nat, Phase>)

  datatype Step =
    | Enter(k: nat)
    | TryAcquire(k: nat)
    | Wake(k: nat)
    | QueueSealed(k: nat)
    | TimeOut(k: nat)
    | Cancel(k: nat)
    | Pop(k: nat)
    | CountIn(k: nat)
    | Finish(k: nat)              // the closure returns or panics
    | CheckOpen(k: nat)
    | Push(k: nat)
    | Refill(k: nat)
    | StoreClosed
    | Seal
    | Clear

  predicate Enabled(s: State, step: Step) {
    match step
    case Enter(k) => k !in s.callers
    case StoreClosed => true
    case Seal => s.pool.closed
    case Clear => s.pool.sealed
    case _ =>
      step.k in s.callers &&
      var p := s.callers[step.k];
      match step
      case TryAcquire(_) => p.Checked?
      case Wake(_) => p.Queued? && s.pool.permits > 0 && !s.pool.sealed
      case QueueSealed(_) => p.Queued? && s.pool.sealed
      case TimeOut(_) => p.Queued?
      case Cancel(_) => p.Queued?
      case Pop(_) => p.Permitted?
      case CountIn(_) => p.Popped?
      case Finish(_) => p.Running?
      case CheckOpen(_) => p.Dropping?
      case Push(_) => p.Pushing?
      case Refill(_) => p.Refilling?
  }

  function Move(s: State, k: nat, pool: Shared, p: Phase): State {
    State(pool, s.callers[k := p])
  }

  function LeaveQueue(s: State, k: nat, p: Phase): State {
    Move(s, k, s.pool.(waiting := s.pool.waiting - 1), p)
  }

  function Do(s: State, step: Step): (s': State)
    requires Enabled(s, step)
  {
    var pool := s.pool;
    match step
    case Enter(k) => Move(s, k, pool, if pool.closed then Done(Closed) else Checked)
    case TryAcquire(k) =>
      if pool.permits > 0 && !pool.sealed then Move(s, k, pool.(permits := pool.permits - 1), Permitted)
      else Move(s, k, pool.(waiting := pool.waiting + 1), Queued)
    case Wake(k) => Move(s, k, pool.(permits := pool.permits - 1, waiting := pool.waiting - 1), Permitted)
    case QueueSealed(k) => LeaveQueue(s, k, Done(Closed))
    case TimeOut(k) => LeaveQueue(s, k, Done(Busy))
    case Cancel(k) => LeaveQueue(s, k, Done(Cancelled))
    case Pop(k) =>
      if pool.conns == [] then Move(s, k, pool, Done(Exhausted))
      else
        var n := |pool.conns| - 1;
        Move(s, k, pool.(conns := pool.conns[..n]), Popped(pool.conns[n]))
    case CountIn(k) => Move(s, k, pool.(inUse := pool.inUse + 1), Running(s.callers[k].conn))
    case Finish(k) => Move(s, k, pool.(inUse := pool.inUse - 1), Dropping(s.callers[k].conn))
    case CheckOpen(k) => Move(s, k, pool, if pool.closed then Done(Finished) else Pushing(s.callers[k].conn))
    case Push(k) => Move(s, k, pool.(conns := pool.conns + [s.callers[k].conn]), Refilling)
    case Refill(k) => Move(s, k, pool.(permits := pool.permits + 1), Done(Finished))
    case StoreClosed => s.(pool := pool.(closed := true))
    case Seal => s.(pool := pool.(sealed := true))
    case Clear => s.(pool := pool.(conns := []))
  }

  /** A freshly opened pool: distinct connections and as many permits. */
  predicate Init(s: State) {
    && s.callers == map[]
    && Distinct(s.pool.conns)
    && s.pool == Shared(s.pool.conns, |s.pool.conns|, 0, 0, false, false)
  }

  predicate Run(states: seq<State>, steps: seq<Step>) {
    && |states| == |steps| + 1
    && forall i :: 0 <= i < |steps| ==> Enabled(states[i], steps[i]) && states[i + 1] == Do(states[i], steps[i])
  }

  predicate Distinct(conns: seq<Conn>) {
    forall i, j :: 0 <= i < j < |conns| ==> conns[i] != conns[j]
  }

  // ----- counting callers -----

  datatype Kind = IsChecked | IsQueued | IsPermitted | IsPopped | IsRunning | IsDropping | IsPushing | IsRefilling | IsDone

  function KindOf(p: Phase): Kind {
    match p
    case Checked => IsChecked
    case Queued => IsQueued
    case Permitted => IsPermitted
    case Popped(_) => IsPopped
    case Running(_) => IsRunning
    case Dropping(_) => IsDropping
    case Pushing(_) => IsPushing
    case Refilling => IsRefilling
    case Done(_) => IsDone
  }

  function Members(callers: map<nat, Phase>, kind: Kind): set<nat> {
    set k | k in callers && KindOf(callers[k]) == kind
  }

  function Count(callers: map<nat, Phase>, kind: Kind): nat {
    |Members(callers, kind)|
  }

  function One(b: bool): nat {
    if b then 1 else 0
  }

  /** Moving caller `k` to phase `p` changes the counts of its two kinds only. */
  lemma CountMoved(callers: map<nat, Phase>, k: nat, p: Phase, kind: Kind)
    ensures Count(callers[k := p], kind) ==
              Count(callers, kind) - One(k in callers && KindOf(callers[k]) == kind) + One(KindOf(p) == kind)
  {
    MembersMoved(callers, k, p, kind);
    hide Members, KindOf;
    var before, after := Members(callers, kind), Members(callers[k := p], kind);
    WithAndWithout(before, k);
    WithAndWithout(after, k);
  }

  lemma MembersMoved(callers: map<nat, Phase>, k: nat, p: Phase, kind: Kind)
    ensures Members(callers[k := p], kind) - {k} == Members(callers, kind) - {k}
    ensures k in Members(callers[k := p], kind) <==> KindOf(p) == kind
    ensures k in Members(callers, kind) <==> k in callers && KindOf(callers[k]) == kind
  {
    hide KindOf;
  }

  lemma WithAndWithout(s: set<nat>, k: nat)
    ensures |s| == |s - {k}| + One(k in s)
  {
    assert k in s ==> s == (s - {k}) + {k};
    assert k !in s ==> s == s - {k};
  }

  // ----- the invariant -----

  predicate Holds(p: Phase) {
    p.Popped? || p.Running? || p.Dropping? || p.Pushing?
  }

  function Held(p: Phase): Conn
    requires Holds(p)
  {
    p.conn
  }

  /** No connection is in two places at once. */
  predicate NoSharing(s: State) {
    && Distinct(s.pool.conns)
    && (forall k :: k in s.callers && Holds(s.callers[k]) ==> Held(s.callers[k]) !in s.pool.conns)
    && (forall j, k :: j in s.callers && k in s.callers && j != k && Holds(s.callers[j]) && Holds(s.callers[k]) ==>
          Held(s.callers[j]) != Held(s.callers[k]))
  }

  function Out(callers: map<nat, Phase>): nat {
    Count(callers, IsPopped) + Count(callers, IsRunning) + Count(callers, IsDropping) + Count(callers, IsPushing)
  }

  /** The ledger of connections and permits: exact while the pool is open; a
      close can only lose entries. */
  predicate Ledger(s: State, size: nat) {
    && |s.pool.conns| + Out(s.callers) <= size
    && s.pool.inUse == Count(s.callers, IsRunning)
    && s.pool.waiting == Count(s.callers, IsQueued)
    && (s.pool.sealed ==> s.pool.closed)
    && (!s.pool.closed ==>
          && |s.pool.conns| + Out(s.callers) == size
          && |s.pool.conns| == s.pool.permits + Count(s.callers, IsPermitted) + Count(s.callers, IsRefilling))
  }

  predicate Sits(s: State, c: Conn) {
    c in s.pool.conns || exists k :: k in s.callers && Holds(s.callers[k]) && Held(s.callers[k]) == c
  }

  /** While the pool is open every connection is idle or held by a caller. */
  predicate NothingLost(s: State, all: set<Conn>) {
    !s.pool.closed ==> forall c :: c in all ==> Sits(s, c)
  }

  // ----- every step keeps it -----

  lemma CountsMoved(callers: map<nat, Phase>, k: nat, p: Phase)
    ensures forall kind :: Count(callers[k := p], kind) ==
              Count(callers, kind) - One(k in callers && KindOf(callers[k]) == kind) + One(KindOf(p) == kind)
  {
    forall kind
      ensures Count(callers[k := p], kind) ==
              Count(callers, kind) - One(k in callers && KindOf(callers[k]) == kind) + One(KindOf(p) == kind)
    {
      CountMoved(callers, k, p, kind);
    }
  }

  predicate IsClose(step: Step) {
    step.StoreClosed? || step.Seal? || step.Clear?
  }

  lemma LedgerStep(s: State, step: Step, size: nat)
    requires Ledger(s, size) && Enabled(s, step)
    ensures Ledger(Do(s, step), size)
  {
    hide Ledger;
    if IsClose(step) {
      LedgerClose(s, step, size);
    } else if IsAcquire(step) {
      LedgerAcquire(s, step, size);
    } else {
      LedgerRelease(s, step, size);
    }
  }

  predicate IsAcquire(step: Step) {
    step.Enter? || step.TryAcquire? || step.Pop? || step.CountIn?
  }

  lemma LedgerClose(s: State, step: Step, size: nat)
    requires Ledger(s, size) && Enabled(s, step) && IsClose(step)
    ensures Ledger(Do(s, step), size)
  {
    hide Count;
  }

  lemma LedgerRelease(s: State, step: Step, size: nat)
    requires Ledger(s, size) && Enabled(s, step) && !IsClose(step) && !IsAcquire(step)
    ensures Ledger(Do(s, step), size)
  {
    hide Count;
    CountsMoved(s.callers, step.k, Do(s, step).callers[step.k]);
  }

  lemma LedgerAcquire(s: State, step: Step, size: nat)
    requires Ledger(s, size) && Enabled(s, step) && IsAcquire(step)
    ensures Ledger(Do(s, step), size)
  {
    hide Count;
    CountsMoved(s.callers, step.k, Do(s, step).callers[step.k]);
  }

  /** A caller that keeps what it holds, or lets go of it, starts no sharing. */
  lemma NoSharingMove(s: State, k: nat, pool: Shared, p: Phase)
    requires NoSharing(s) && pool.conns == s.pool.conns
    requires Holds(p) ==> k in s.callers && Holds(s.callers[k]) && Held(p) == Held(s.callers[k])
    ensures NoSharing(Move(s, k, pool, p))
  {
  }

  lemma NoSharingPop(s: State, k: nat)
    requires NoSharing(s) && Enabled(s, Pop(k)) && s.pool.conns != []
    ensures NoSharing(Do(s, Pop(k)))
  {
    var s', n := Do(s, Pop(k)), |s.pool.conns| - 1;
    assert s.pool.conns[n] in s.pool.conns && s.pool.conns[n] !in s'.pool.conns;
    assert forall c :: c in s'.pool.conns ==> c in s.pool.conns;
  }

  lemma NoSharingPush(s: State, k: nat)
    requires NoSharing(s) && Enabled(s, Push(k))
    ensures NoSharing(Do(s, Push(k)))
  {
    var s', c := Do(s, Push(k)), s.callers[k].conn;
    assert Held(s.callers[k]) == c;
    assert forall x :: x in s'.pool.conns ==> x in s.pool.conns || x == c;
  }

  lemma NoSharingStep(s: State, step: Step)
    requires NoSharing(s) && Enabled(s, step)
    ensures NoSharing(Do(s, step))
  {
    if step.Pop? && s.pool.conns != [] {
      NoSharingPop(s, step.k);
    } else if step.Push? {
      NoSharingPush(s, step.k);
    } else if !IsClose(step) {
      NoSharingMove(s, step.k, Do(s, step).pool, Do(s, step).callers[step.k]);
    }
  }

  lemma NothingLostStep(s: State, step: Step, all: set<Conn>)
    requires NothingLost(s, all) && Enabled(s, step) && (s.pool.sealed ==> s.pool.closed)
    ensures NothingLost(Do(s, step), all)
  {
    var s' := Do(s, step);
    if !s'.pool.closed {
      forall c | c in all
        ensures Sits(s', c)
      {
        assert Sits(s, c);
        if step.Pop? && s.pool.conns != [] {
          PopMoves(s, step.k, c);
        } else if c in s.pool.conns {
          var i :| 0 <= i < |s.pool.conns| && s.pool.conns[i] == c;
          assert s'.pool.conns[i] == c;
        } else {
          var k :| k in s.callers && Holds(s.callers[k]) && Held(s.callers[k]) == c;
          assert k in s'.callers;
          assert step == Push(k) ==> s'.pool.conns[|s.pool.conns|] == c;
        }
      }
    }
  }

  lemma PopMoves(s: State, k: nat, c: Conn)
    requires Enabled(s, Pop(k)) && s.pool.conns != [] && Sits(s, c)
    ensures Sits(Do(s, Pop(k)), c)
  {
    var s' := Do(s, Pop(k));
    var n := |s.pool.conns| - 1;
    if c in s.pool.conns {
      if c == s.pool.conns[n] {
        assert k in s'.callers && Held(s'.callers[k]) == c;
      } else {
        var i :| 0 <= i < |s.pool.conns| && s.pool.conns[i] == c;
        assert s'.pool.conns[i] == c;
      }
    } else {
      var j :| j in s.callers && Holds(s.callers[j]) && Held(s.callers[j]) == c;
      assert j in s'.callers && s'.callers[j] == s.callers[j];
    }
  }

  function AllOf(s: State): set<Conn> {
    set c | c in s.pool.conns
  }

  predicate Inv(s: State, size: nat, all: set<Conn>) {
    Ledger(s, size) && NoSharing(s) && NothingLost(s, all)
  }

  lemma {:induction false} RunInv(states: seq<State>, steps: seq<Step>, n: nat)
    requires Run(states, steps) && Init(states[0]) && n < |states|
    ensures Inv(states[n], |states[0].pool.conns|, AllOf(states[0]))
  {
    if n == 0 {
      assert forall kind :: Members(states[0].callers, kind) == {};
    } else {
      RunInv(states, steps, n - 1);
      LedgerStep(states[n - 1], steps[n - 1], |states[0].pool.conns|);
      NoSharingStep(states[n - 1], steps[n - 1]);
      NothingLostStep(states[n - 1], steps[n - 1], AllOf(states[0]));
    }
  }

  // ----- the theorems -----

  predicate Quiescent(s: State) {
    forall k :: k in s.callers ==> s.callers[k].Done?
  }

  lemma NoMembers(s: State, kind: Kind)
    requires forall k :: k in s.callers ==> KindOf(s.callers[k]) != kind
    ensures Count(s.callers, kind) == 0
  {
    assert Members(s.callers, kind) == {};
  }

  lemma HasMember(s: State, k: nat)
    requires k in s.callers
    ensures Count(s.callers, KindOf(s.callers[k])) > 0
  {
    assert k in Members(s.callers, KindOf(s.callers[k]));
  }

  /** Conservation, for every interleaving of acquires, timeouts, cancelled
      waits, panics and releases: no connection is leased twice, the counters
      are exact (so `inUse` never underflows), no more closures run than there
      are connections, and while the pool is open a permit is always worth a
      connection and nothing is lost. */
  lemma Conservation(states: seq<State>, steps: seq<Step>, n: nat)
    requires Run(states, steps) && Init(states[0]) && n < |states|
    ensures var s, size := states[n], |states[0].pool.conns|;
            && NoSharing(s)
            && s.pool.inUse == Count(s.callers, IsRunning) <= size
            && s.pool.waiting == Count(s.callers, IsQueued)
            && (!s.pool.closed ==>
                  && (forall k :: k in s.callers && s.callers[k].Permitted? ==> s.pool.conns != [])
                  && (forall c :: c in states[0].pool.conns ==> Sits(s, c)))
  {
    RunInv(states, steps, n);
    var s := states[n];
    forall k | k in s.callers && s.callers[k].Permitted?
      ensures !s.pool.closed ==> s.pool.conns != []
    {
      HasMember(s, k);
    }
  }

  /** On an open pool nobody is ever told the pool is exhausted. */
  lemma NeverExhausted(states: seq<State>, steps: seq<Step>, n: nat, k: nat)
    requires Run(states, steps) && Init(states[0]) && n < |steps|
    requires !states[n].pool.closed && steps[n] == Pop(k)
    ensures states[n + 1].callers[k].Popped?
  {
    Conservation(states, steps, n);
  }

  /** The write pool has one connection: at most one closure runs. */
  lemma SingleWriter(states: seq<State>, steps: seq<Step>, n: nat, j: nat, k: nat)
    requires Run(states, steps) && Init(states[0]) && n < |states| && |states[0].pool.conns| == 1
    requires j in states[n].callers && states[n].callers[j].Running?
    requires k in states[n].callers && states[n].callers[k].Running?
    ensures j == k
  {
    Conservation(states, steps, n);
    var running := Members(states[n].callers, IsRunning);
    assert j in running && k in running;
    if j != k {
      assert {j, k} <= running;
      SubsetSize({j, k}, running);
    }
  }

  lemma SubsetSize(a: set<nat>, b: set<nat>)
    requires a <= b
    ensures |a| <= |b|
  {
    assert b == a + (b - a);
  }

  /** At quiescence on an open pool every connection and permit is back. */
  lemma AllReturned(states: seq<State>, steps: seq<Step>, n: nat)
    requires Run(states, steps) && Init(states[0]) && n < |states|
    requires Quiescent(states[n]) && !states[n].pool.closed
    ensures var s, first := states[n].pool, states[0].pool;
            && |s.conns| == s.permits == |first.conns| && s.inUse == 0 && s.waiting == 0
            && Distinct(s.conns) && (forall c :: c in first.conns ==> c in s.conns)
  {
    RunInv(states, steps, n);
    var s, first := states[n], states[0].pool.conns;
    NoMembers(s, IsPopped);
    NoMembers(s, IsRunning);
    NoMembers(s, IsDropping);
    NoMembers(s, IsPushing);
    NoMembers(s, IsPermitted);
    NoMembers(s, IsRefilling);
    NoMembers(s, IsQueued);
    assert forall c :: c in first ==> c in s.pool.conns by {
      forall c | c in first
        ensures c in s.pool.conns
      {
        assert Sits(s, c);
      }
    }
  }

  // ----- closing -----

  predicate ClosedUp(s: State) {
    s.pool.closed && s.pool.sealed && s.pool.conns == []
  }

  predicate AnyPermitted(s: State) {
    exists k :: k in s.callers && s.callers[k].Permitted?
  }

  predicate AnyPushing(s: State) {
    exists k :: k in s.callers && s.callers[k].Pushing?
  }

  /** Some acquire in the run gets a connection. */
  predicate Acquires(states: seq<State>, steps: seq<Step>)
    requires Run(states, steps)
  {
    exists i :: 0 <= i < |steps| && steps[i].Pop? && states[i].pool.conns != []
  }

  lemma {:induction false} ClosedStays(states: seq<State>, steps: seq<Step>, n: nat)
    requires Run(states, steps) && n < |states| && ClosedUp(states[0])
    ensures states[n].pool.closed && states[n].pool.sealed
    ensures !AnyPermitted(states[0]) ==> !AnyPermitted(states[n])
    ensures !AnyPushing(states[0]) ==> !AnyPushing(states[n]) && states[n].pool.conns == []
  {
    if n > 0 {
      ClosedStays(states, steps, n - 1);
      var s, s' := states[n - 1], states[n];
      if AnyPermitted(s') {
        var k :| k in s'.callers && s'.callers[k].Permitted?;
        assert k in s.callers && s.callers[k].Permitted?;
      }
      if AnyPushing(s') {
        var k :| k in s'.callers && s'.callers[k].Pushing?;
        assert k in s.callers && s.callers[k].Pushing?;
      }
    }
  }

  /** A closed pool hands out no further connection, except in one race: a
      caller already holds a permit while a release that read `closed` before
      the close has yet to push its connection. Exactly then an acquire can
      still succeed. */
  lemma CloseIsFinalExactly(s: State)
    requires ClosedUp(s)
    ensures AnyPermitted(s) && AnyPushing(s) <==>
            exists states, steps :: Run(states, steps) && states[0] == s && Acquires(states, steps)
  {
    if AnyPermitted(s) && AnyPushing(s) {
      LateAcquire(s);
    }
    forall states: seq<State>, steps: seq<Step> | Run(states, steps) && states[0] == s && Acquires(states, steps)
      ensures AnyPermitted(s) && AnyPushing(s)
    {
      var i :| 0 <= i < |steps| && steps[i].Pop? && states[i].pool.conns != [];
      ClosedStays(states, steps, i);
      assert AnyPermitted(states[i]);
    }
  }

  lemma LateAcquire(s: State)
    requires ClosedUp(s) && AnyPermitted(s) && AnyPushing(s)
    ensures exists states, steps :: Run(states, steps) && states[0] == s && Acquires(states, steps)
  {
    var k :| k in s.callers && s.callers[k].Permitted?;
    var j :| j in s.callers && s.callers[j].Pushing?;
    var states, steps := [s, Do(s, Push(j)), Do(Do(s, Push(j)), Pop(k))], [Push(j), Pop(k)];
    TwoSteps(s, Push(j), Pop(k));
    hide Run;
    assert steps[1].Pop? && states[1].pool.conns != [];
    assert Acquires(states, steps);
  }

  lemma TwoSteps(s: State, a: Step, b: Step)
    requires Enabled(s, a) && Enabled(Do(s, a), b)
    ensures Run([s, Do(s, a), Do(Do(s, a), b)], [a, b])
  {
    hide Do, Enabled;
  }

  lemma Go(states: seq<State>, steps: seq<Step>, step: Step, s: State) returns (states': seq<State>, steps': seq<Step>)
    requires Run(states, steps) && Enabled(states[|states| - 1], step) && s == Do(states[|states| - 1], step)
    ensures Run(states', steps') && states'[0] == states[0] && states'[|states'| - 1] == s
  {
    states', steps' := states + [s], steps + [step];
  }

  function Duo(conns: seq<Conn>, permits: nat, inUse: int, callers: map<nat, Phase>): State {
    State(Shared(conns, permits, inUse, 0, false, false), callers)
  }

  lemma LeaseOut() returns (states: seq<State>, steps: seq<Step>)
    ensures Run(states, steps) && states[0] == Duo([10, 11], 2, 0, map[])
    ensures states[|states| - 1] == Duo([10], 1, 1, map[1 := Running(11)])
  {
    states, steps := [Duo([10, 11], 2, 0, map[])], [];
    assert Run(states, steps);
    hide Run;
    states, steps := Go(states, steps, Enter(1), Duo([10, 11], 2, 0, map[1 := Checked]));
    states, steps := Go(states, steps, TryAcquire(1), Duo([10, 11], 1, 0, map[1 := Permitted]));
    states, steps := Go(states, steps, Pop(1), Duo([10], 1, 0, map[1 := Popped(11)]));
    states, steps := Go(states, steps, CountIn(1), Duo([10], 1, 1, map[1 := Running(11)]));
  }

  lemma ReturnAndClaim() returns (states: seq<State>, steps: seq<Step>)
    ensures Run(states, steps) && states[0] == Duo([10, 11], 2, 0, map[])
    ensures states[|states| - 1] == Duo([10], 0, 0, map[1 := Pushing(11), 2 := Permitted])
  {
    hide Run;
    states, steps := LeaseOut();
    states, steps := Go(states, steps, Finish(1), Duo([10], 1, 0, map[1 := Dropping(11)]));
    states, steps := Go(states, steps, CheckOpen(1), Duo([10], 1, 0, map[1 := Pushing(11)]));
    states, steps := Go(states, steps, Enter(2), Duo([10], 1, 0, map[1 := Pushing(11), 2 := Checked]));
    states, steps := Go(states, steps, TryAcquire(2), Duo([10], 0, 0, map[1 := Pushing(11), 2 := Permitted]));
  }

  /** The race is reachable: two connections, one caller returning its lease
      and one about to pop, while the pool is closed. */
  lemma CloseRaceIsReachable() returns (states: seq<State>, steps: seq<Step>)
    ensures Run(states, steps) && Init(states[0])
    ensures var s := states[|states| - 1]; ClosedUp(s) && AnyPermitted(s) && AnyPushing(s)
  {
    hide Run;
    var callers := map[1 := Pushing(11), 2 := Permitted];
    states, steps := ReturnAndClaim();
    states, steps := Go(states, steps, StoreClosed, State(Shared([10], 0, 0, 0, true, false), callers));
    states, steps := Go(states, steps, Seal, State(Shared([10], 0, 0, 0, true, true), callers));
    states, steps := Go(states, steps, Clear, State(Shared([], 0, 0, 0, true, true), callers));
    assert callers[2].Permitted? && callers[1].Pushing?;
  }

  // ----- the pool object -----

  /** What an undisturbed `acquire` does: fail on a closed pool, give up when
      no permit is free, else take the last connection. */
  function Acquired(p: Shared): (r: (Shared, Result<Conn, Outcome>)) {
    if p.closed then (p, Failure(Closed))
    else if p.permits == 0 || p.sealed then (p, Failure(if p.sealed then Closed else Busy))
    else if p.conns == [] then (p.(permits := p.permits - 1), Failure(Exhausted))
    else
      var n := |p.conns| - 1;
      (p.(permits := p.permits - 1, conns := p.conns[..n], inUse := p.inUse + 1), Success(p.conns[n]))
  }

  function Released(p: Shared, c: Conn): (r: Shared) {
    if p.closed then p.(inUse := p.inUse - 1)
    else p.(inUse := p.inUse - 1, conns := p.conns + [c], permits := p.permits + 1)
  }

  /** Leasing a connection and giving it back leaves an open pool as it was. */
  lemma ReleaseUndoesAcquire(p: Shared)
    requires !p.closed && Acquired(p).1.Success?
    ensures Released(Acquired(p).0, Acquired(p).1.value) == p
  {
    var n := |p.conns| - 1;
    assert p.conns[..n] + [p.conns[n]] == p.conns;
  }

  /** An undisturbed lease is four steps of its caller, its return is four more. */
  lemma AcquireIsSteps(s: State, k: nat)
    requires k !in s.callers && Acquired(s.pool).1.Success?
    ensures Enabled(s, Enter(k))
    ensures var s1 := Do(s, Enter(k));
            Enabled(s1, TryAcquire(k)) &&
            var s2 := Do(s1, TryAcquire(k));
            Enabled(s2, Pop(k)) &&
            var s3 := Do(s2, Pop(k));
            Enabled(s3, CountIn(k)) &&
            Do(s3, CountIn(k)) == Move(s, k, Acquired(s.pool).0, Running(Acquired(s.pool).1.value))
  {
    assert s.callers[k := Checked][k := Permitted] == s.callers[k := Permitted];
  }

  lemma ReleaseIsSteps(s: State, k: nat)
    requires k in s.callers && s.callers[k].Running? && !s.pool.closed
    ensures Enabled(s, Finish(k))
    ensures var s1 := Do(s, Finish(k));
            Enabled(s1, CheckOpen(k)) &&
            var s2 := Do(s1, CheckOpen(k));
            Enabled(s2, Push(k)) &&
            var s3 := Do(s2, Push(k));
            Enabled(s3, Refill(k)) &&
            Do(s3, Refill(k)) == Move(s, k, Released(s.pool, s.callers[k].conn), Done(Finished))
  {
    var c := s.callers[k].conn;
    assert s.callers[k := Dropping(c)][k := Pushing(c)] == s.callers[k := Pushing(c)];
    assert s.callers[k := Pushing(c)][k := Refilling] == s.callers[k := Refilling];
  }

  /** An undisturbed acquire that is refused is steps of its caller as well. */
  lemma RefusalIsSteps(s: State, k: nat)
    requires k !in s.callers && Acquired(s.pool).1.Failure?
    ensures Enabled(s, Enter(k))
    ensures var s1 := Do(s, Enter(k));
            var refused := Move(s, k, Acquired(s.pool).0, Done(Acquired(s.pool).1.error));
            if s.pool.closed then s1 == refused
            else
              Enabled(s1, TryAcquire(k)) &&
              var s2 := Do(s1, TryAcquire(k));
              var last := if s2.callers[k].Permitted? then Pop(k) else if s.pool.sealed then QueueSealed(k) else TimeOut(k);
              Enabled(s2, last) && Do(s2, last) == refused
  {
    var d := Done(Acquired(s.pool).1.error);
    assert s.callers[k := Checked][k := Queued][k := d] == s.callers[k := d];
    assert s.callers[k := Checked][k := Permitted][k := d] == s.callers[k := d];
  }

  /** On a closed pool a returned lease is dropped. */
  lemma DropIsSteps(s: State, k: nat)
    requires k in s.callers && s.callers[k].Running? && s.pool.closed
    ensures Enabled(s, Finish(k))
    ensures var s1 := Do(s, Finish(k));
            Enabled(s1, CheckOpen(k)) &&
            Do(s1, CheckOpen(k)) == Move(s, k, Released(s.pool, s.callers[k].conn), Done(Finished))
  {
    assert s.callers[k := Dropping(s.callers[k].conn)][k := Done(Finished)] == s.callers[k := Done(Finished)];
  }

  // ----- what an outcome means -----

  predicate Was(states: seq<State>, n: nat, k: nat, kind: Kind)
    requires n <= |states|
  {
    exists m :: 0 <= m < n && k in states[m].callers && KindOf(states[m].callers[k]) == kind
  }

  predicate HasRun(p: Phase) {
    p.Dropping? || p.Pushing? || p.Refilling? || p == Done(Finished)
  }

  predicate HasQueued(p: Phase) {
    p == Done(Busy) || p == Done(Cancelled)
  }

  lemma OutcomeStep(s: State, step: Step, k: nat)
    requires Enabled(s, step) && (s.pool.sealed ==> s.pool.closed) && k in Do(s, step).callers
    ensures var p := Do(s, step).callers[k];
            && (p == Done(Closed) ==> Do(s, step).pool.closed || (k in s.callers && s.callers[k] == p))
            && (HasRun(p) ==> k in s.callers && (s.callers[k].Running? || HasRun(s.callers[k])))
            && (HasQueued(p) ==> k in s.callers && (s.callers[k].Queued? || HasQueued(s.callers[k])))
            && (p == Done(Exhausted) ==> k in s.callers && (s.callers[k] == p || (step == Pop(k) && s.pool.conns == [])))
            && (s.pool.closed ==> Do(s, step).pool.closed)
  {
  }

  lemma WasBefore(states: seq<State>, n: nat, k: nat, kind: Kind)
    requires 0 < n < |states| && k in states[n - 1].callers
    ensures KindOf(states[n - 1].callers[k]) == kind || Was(states, n - 1, k, kind) ==> Was(states, n, k, kind)
  {
  }

  /** An acquire is refused as closed or exhausted only by a closed pool; it times
      out or is cancelled only after it queued; it finishes only after it ran. */
  lemma {:induction false} OutcomeMeans(states: seq<State>, steps: seq<Step>, n: nat, k: nat)
    requires Run(states, steps) && Init(states[0]) && n < |states| && k in states[n].callers
    ensures Meaning(states, n, k)
  {
    if n > 0 {
      OutcomeNext(states, steps, n, k);
      if k in states[n - 1].callers {
        OutcomeMeans(states, steps, n - 1, k);
        WasBefore(states, n, k, IsRunning);
        WasBefore(states, n, k, IsQueued);
      }
      hide Run, Init, Was;
    }
  }

  predicate Meaning(states: seq<State>, n: nat, k: nat)
    requires n < |states| && k in states[n].callers
  {
    var p := states[n].callers[k];
    && (p == Done(Closed) || p == Done(Exhausted) ==> states[n].pool.closed)
    && (HasRun(p) ==> Was(states, n, k, IsRunning))
    && (HasQueued(p) ==> Was(states, n, k, IsQueued))
  }

  /** How a caller's phase at `n` follows from its phase before. */
  lemma OutcomeNext(states: seq<State>, steps: seq<Step>, n: nat, k: nat)
    requires Run(states, steps) && Init(states[0]) && 0 < n < |states| && k in states[n].callers
    ensures var p, s := states[n].callers[k], states[n - 1];
            && (p == Done(Closed) || p == Done(Exhausted) ==> states[n].pool.closed || (k in s.callers && s.callers[k] == p))
            && (HasRun(p) ==> k in s.callers && (s.callers[k].Running? || HasRun(s.callers[k])))
            && (HasQueued(p) ==> k in s.callers && (s.callers[k].Queued? || HasQueued(s.callers[k])))
            && (s.pool.closed ==> states[n].pool.closed)
  {
    var s, step := states[n - 1], steps[n - 1];
    RunInv(states, steps, n - 1);
    if step == Pop(k) && !s.pool.closed {
      NeverExhausted(states, steps, n - 1, k);
    }
    assert Enabled(s, step) && states[n] == Do(s, step);
    hide Run, Init, Enabled, Do, NoSharing, NothingLost;
    OutcomeStep(s, step, k);
  }

  class Pool {
    var conns: seq<Conn>
    var permits: nat
    var inUse: int
    var waiting: int
    var waitCount: nat
    var closed: bool
    var sealed: bool

    constructor (conns: seq<Conn>)
      ensures View() == Shared(conns, |conns|, 0, 0, false, false) && waitCount == 0
    {
      this.conns, permits, inUse, waiting, waitCount := conns, |conns|, 0, 0, 0;
      closed, sealed := false, false;
    }

    ghost function View(): Shared
      reads this
    {
      Shared(conns, permits, inUse, waiting, closed, sealed)
    }

    /** Takes a connection out, counting the wait when none is free; with
        nobody to release one, the wait ends in a timeout. */
    method Acquire() returns (r: Result<Conn, Outcome>)
      modifies this
      ensures (View(), r) == Acquired(old(View()))
      ensures waitCount == old(waitCount) + One(r == Failure(Busy) || (r == Failure(Closed) && !old(closed)))
    {
      if closed {
        return Failure(Closed);
      }
      if permits == 0 || sealed {
        waiting := waiting + 1;
        var sealedWhileWaiting := sealed;
        waiting := waiting - 1;
        waitCount := waitCount + 1;
        return Failure(if sealedWhileWaiting then Closed else Busy);
      }
      permits := permits - 1;
      if conns == [] {
        return Failure(Exhausted);
      }
      var conn := conns[|conns| - 1];
      conns := conns[..|conns| - 1];
      inUse := inUse + 1;
      return Success(conn);
    }

    method Release(conn: Conn)
      modifies this
      ensures View() == Released(old(View()), conn) && waitCount == old(waitCount)
    {
      inUse := inUse - 1;
      if closed {
        return;
      }
      conns := conns + [conn];
      permits := permits + 1;
    }

    method Close()
      modifies this
      ensures View() == old(View()).(closed := true, sealed := true, conns := []) && waitCount == old(waitCount)
    {
      closed := true;
      sealed := true;
      conns := [];
    }

    /** Runs a closure on a leased connection; the lease is dropped whether the
        closure returns or panics, so the open pool ends as it began. */
    method RunClosure() returns (r: Result<Conn, Outcome>)
      modifies this
      ensures r == Acquired(old(View())).1
      ensures r.Success? ==> View() == old(View())
    {
      r := Acquire();
      if r.Success? {
        ReleaseUndoesAcquire(old(View()));
        Release(r.value);
      }
    }
  }
}
