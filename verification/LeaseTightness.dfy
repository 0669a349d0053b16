/** The bound in `TimedExclusion` cannot be improved: every shorter lease admits
    a take-over under a running renew loop. */
module LeaseTightness {
  import opened Wrappers
  import opened LeaseRecord
  import opened LeaseElection
  import opened LeaseFencing
  import opened LeaseTiming

  const HOLDER := "a"
  const RIVAL := "b"

  function Site(c: Config, cached: Option<nat>, observed: Record, raw: Option<Record>, seenAt: int, phase: Phase): Elector {
    Elector(c, 0, cached, observed, raw, seenAt, false, phase)
  }

  /** What the holder, having acquired at time 0, writes in an attempt started at
      `z`: every write of that attempt carries the same record. */
  function RecordAt(c: Config, z: nat): Record {
    Record(HOLDER, c.LeaseSeconds(), Some(0), Some(z), 0)
  }

  /** A run, newest state last. */
  datatype Trace = Start(s: State) | Then(before: Trace, step: Step, s: State)

  predicate Good(t: Trace, limit: nat) {
    Timely(t.s, limit) &&
    match t
    case Start(s) => TimedInit(s)
    case Then(before, step, s) => Good(before, limit) && Enabled(before.s, step) && s == Do(before.s, step)
  }

  lemma GoodIsTimely(t: Trace, limit: nat)
    requires Good(t, limit)
    ensures Timely(t.s, limit)
  {
  }

  /** Only the passing of time can make a phase late. */
  lemma KeepsTimely(s: State, limit: nat, step: Step)
    requires Timely(s, limit) && Enabled(s, step) && !step.Tick?
    ensures Timely(Do(s, step), limit)
  {
    var s' := Do(s, step);
    forall id | id in s'.electors
      ensures OnTime(s'.electors[id].phase, s'.now, limit)
    {
      assert OnTime(s.electors[id].phase, s.now, limit);
    }
  }

  lemma Go(t: Trace, limit: nat, step: Step, s: State) returns (t': Trace)
    requires Good(t, limit) && Enabled(t.s, step) && s == Do(t.s, step) && (step.Tick? ==> Timely(s, limit))
    ensures t' == Then(t, step, s) && Good(t', limit)
  {
    if !step.Tick? {
      KeepsTimely(t.s, limit, step);
    }
    t' := Then(t, step, s);
  }

  predicate Usable(c: Config) {
    c.Validate().None? && FitsI32(c.LeaseSeconds())
  }

  function Two(now: int, lease: seq<Record>, writes: seq<Write>, a: Elector, b: Elector): State {
    State(now, lease, writes, map[HOLDER := a, RIVAL := b])
  }

  function Unborn(c: Config): Elector {
    Site(c, None, DEFAULT_RECORD, None, 0, Idle(0))
  }

  /** The rival saw version 1, the holder's record of time `z`, at once and sleeps. */
  function Watching(c: Config, z: nat): Elector {
    Site(c, Some(1), RecordAt(c, z), Some(RecordAt(c, z)), z, AcquireSleep(z + c.retryPeriod))
  }

  // ----- the stage is set at time `z`: an optimistic renewal just applied -----

  function Asking(id: string, c: Config, z: nat, reply: Option<Option<nat>>): Elector {
    Site(c, None, DEFAULT_RECORD, None, z,
         Attempting(Acquire, Record(id, c.LeaseSeconds(), Some(z), Some(z), 0), z, z, GetWait(reply)))
  }

  lemma Ask(t0: Trace, c: Config, limit: nat, id: string, z: nat, reply: Option<nat>) returns (t: Trace)
    requires Usable(c) && Good(t0, limit) && t0.s.now == z
    requires id in t0.s.electors && id != "" && t0.s.electors[id] == Unborn(c)
    requires reply == if t0.s.lease == [] then None else Some(|t0.s.lease| - 1)
    ensures Good(t, limit) && t.s == SetElector(t0.s, id, Asking(id, c, z, Some(reply)))
  {
    hide Good;
    GoodIsTimely(t0, limit);
    var s := t0.s;
    t := Go(t0, limit, StartTerm(id), SetElector(s, id, Site(c, None, DEFAULT_RECORD, None, z, AcquireSleep(z))));
    t := Go(t, limit, BeginAcquire(id), SetElector(s, id, Asking(id, c, z, None)));
    t := Go(t, limit, ServeGet(id), SetElector(s, id, Asking(id, c, z, Some(reply))));
  }

  /** The holder's attempt at time `z`: version 1 is its optimistic write, not yet
      acknowledged. `prior` is version 0, `w0` the write before it, `loop` the
      loop the attempt belongs to; `observed` and `raw` are what it had seen. */
  datatype Scene = Scene(z: nat, prior: Record, w0: Write, loop: Loop, observed: Record, raw: Option<Record>, seenAt: int)

  predicate SceneOk(g: Scene, c: Config) {
    g.raw != Some(RecordAt(c, g.z)) && g.prior.transitions == 0
  }

  function Sent(c: Config, g: Scene, phase: Phase): Elector {
    Site(c, Some(0), g.observed, g.raw, g.seenAt, phase)
  }

  function Trying1(c: Config, g: Scene): Elector {
    Sent(c, g, Attempting(g.loop, RecordAt(c, g.z), g.z, g.z, FastWait(1)))
  }

  function Opening(c: Config, g: Scene, rival: Elector): State {
    Two(g.z, [g.prior, RecordAt(c, g.z)], [g.w0, Renewed(c, g.z, 0)], Trying1(c, g), rival)
  }

  /** The same before the optimistic write is applied. */
  function Sending(c: Config, g: Scene): State {
    Two(g.z, [g.prior], [g.w0, Write(HOLDER, Some(0), RecordAt(c, g.z), InFlight)], Trying1(c, g), Unborn(c))
  }

  lemma Apply(t0: Trace, c: Config, limit: nat, g: Scene) returns (t: Trace)
    requires Usable(c) && Good(t0, limit) && t0.s == Sending(c, g)
    ensures Good(t, limit) && t.s == Opening(c, g, Unborn(c))
  {
    hide Good;
    WireRoundTrip(RecordAt(c, g.z));
    t := Go(t0, limit, ServeWrite(1), Opening(c, g, Unborn(c)));
  }

  function Renewed(c: Config, z: nat, base: nat): Write {
    Write(HOLDER, Some(base), RecordAt(c, z), Applied(base + 1))
  }

  lemma Watch(t0: Trace, c: Config, limit: nat, g: Scene) returns (t: Trace)
    requires Usable(c) && Good(t0, limit) && t0.s == Opening(c, g, Unborn(c))
    ensures Good(t, limit) && t.s == Opening(c, g, Watching(c, g.z))
  {
    hide Good;
    t := Ask(t0, c, limit, RIVAL, g.z, Some(1));
    t := Go(t, limit, GetReply(RIVAL, c.retryPeriod), Opening(c, g, Watching(c, g.z)));
  }

  // ----- first scene: the holder creates the Lease and renews at once -----

  function RenewScene(c: Config): Scene {
    Scene(0, RecordAt(c, 0), Created(c), Renew(c.renewDeadline), RecordAt(c, 0), None, 0)
  }

  function Created(c: Config): Write {
    Write(HOLDER, None, RecordAt(c, 0), Applied(0))
  }

  function Creating(c: Config): Elector {
    Unborn(c).(phase := Attempting(Acquire, RecordAt(c, 0), 0, 0, CreateWait(0)))
  }

  lemma Begin(c: Config, limit: nat) returns (t: Trace)
    requires Usable(c)
    ensures Good(t, limit) && t.s == Two(0, [], [], Unborn(c), Unborn(c))
  {
    t := Start(Two(0, [], [], Unborn(c), Unborn(c)));
  }

  lemma Create(c: Config, limit: nat) returns (t: Trace)
    requires Usable(c)
    ensures Good(t, limit)
    ensures t.s == Two(0, [], [Write(HOLDER, None, RecordAt(c, 0), InFlight)], Creating(c), Unborn(c))
  {
    hide Good;
    t := Begin(c, limit);
    t := Ask(t, c, limit, HOLDER, 0, None);
    t := Go(t, limit, GetReply(HOLDER, c.retryPeriod),
            Two(0, [], [Write(HOLDER, None, RecordAt(c, 0), InFlight)], Creating(c), Unborn(c)));
  }

  lemma CreateServed(c: Config, limit: nat) returns (t: Trace)
    requires Usable(c)
    ensures Good(t, limit) && t.s == Two(0, [RecordAt(c, 0)], [Created(c)], Creating(c), Unborn(c))
  {
    hide Good;
    WireRoundTrip(RecordAt(c, 0));
    t := Create(c, limit);
    t := Go(t, limit, ServeWrite(0), Two(0, [RecordAt(c, 0)], [Created(c)], Creating(c), Unborn(c)));
  }

  lemma Elect(c: Config, limit: nat) returns (t: Trace)
    requires Usable(c)
    ensures Good(t, limit)
    ensures t.s == Two(0, [RecordAt(c, 0)], [Created(c)], Site(c, Some(0), RecordAt(c, 0), None, 0, RenewSleep(0)), Unborn(c))
  {
    hide Good;
    var X := RecordAt(c, 0);
    t := CreateServed(c, limit);
    t := Go(t, limit, WriteAck(HOLDER), Two(0, [X], [Created(c)], Site(c, Some(0), X, None, 0, RenewSleep(0)), Unborn(c)));
  }

  lemma RenewAtOnce(c: Config, limit: nat) returns (t: Trace)
    requires Usable(c)
    ensures Good(t, limit) && t.s == Opening(c, RenewScene(c), Unborn(c))
  {
    hide Good;
    var g := RenewScene(c);
    t := Elect(c, limit);
    t := Go(t, limit, BeginWindow(HOLDER), Sending(c, g));
    t := Apply(t, c, limit, g);
  }

  // ----- second scene: the holder, restarted, acquires in its third attempt -----

  /** A write of the restarted holder whose answer is lost; it never arrives. */
  function Lost(c: Config): Write {
    Write(HOLDER, Some(0), RecordAt(c, 0), InFlight)
  }

  function AcquireScene(c: Config): Scene {
    Scene(c.retryPeriod, RecordAt(c, 0), Lost(c), Acquire, RecordAt(c, 0), Some(RecordAt(c, 0)), 0)
  }

  lemma Restarted(c: Config, limit: nat) returns (t: Trace)
    requires Usable(c)
    ensures Good(t, limit) && t.s == Two(0, [RecordAt(c, 0)], [], Unborn(c), Unborn(c))
  {
    t := Start(Two(0, [RecordAt(c, 0)], [], Unborn(c), Unborn(c)));
  }

  lemma ReadOwnLease(c: Config, limit: nat) returns (t: Trace)
    requires Usable(c)
    ensures Good(t, limit)
    ensures var Y := RecordAt(c, 0);
            t.s == Two(0, [Y], [Lost(c)], Sent(c, AcquireScene(c), Attempting(Acquire, Y, 0, 0, SlowWait(0))), Unborn(c))
  {
    hide Good;
    var Y, g := RecordAt(c, 0), AcquireScene(c);
    t := Restarted(c, limit);
    t := Ask(t, c, limit, HOLDER, 0, Some(0));
    t := Go(t, limit, GetReply(HOLDER, c.retryPeriod),
            Two(0, [Y], [Lost(c)], Sent(c, g, Attempting(Acquire, Y, 0, 0, SlowWait(0))), Unborn(c)));
  }

  lemma FindOwnLease(c: Config, limit: nat) returns (t: Trace)
    requires Usable(c)
    ensures Good(t, limit)
    ensures t.s == Two(0, [RecordAt(c, 0)], [Lost(c)], Sent(c, AcquireScene(c), AcquireSleep(c.retryPeriod)), Unborn(c))
  {
    hide Good;
    var Y, g := RecordAt(c, 0), AcquireScene(c);
    t := ReadOwnLease(c, limit);
    t := Go(t, limit, WriteFail(HOLDER, c.retryPeriod), Two(0, [Y], [Lost(c)], Sent(c, g, AcquireSleep(c.retryPeriod)), Unborn(c)));
  }

  lemma WakeUp(c: Config, limit: nat) returns (t: Trace)
    requires Usable(c)
    ensures Good(t, limit)
    ensures var g := AcquireScene(c);
            t.s == Two(g.z, [RecordAt(c, 0)], [Lost(c)], Sent(c, g, AcquireSleep(g.z)), Unborn(c))
  {
    hide Good;
    t := FindOwnLease(c, limit);
    t := Go(t, limit, Tick(c.retryPeriod), t.s.(now := c.retryPeriod));
  }

  lemma AcquireAgain(c: Config, limit: nat) returns (t: Trace)
    requires Usable(c) && c.LeaseSeconds() * NANOS_PER_SECOND > c.retryPeriod
    ensures Good(t, limit) && t.s == Opening(c, AcquireScene(c), Unborn(c))
  {
    hide Good;
    var g := AcquireScene(c);
    t := WakeUp(c, limit);
    t := Go(t, limit, BeginAcquire(HOLDER), Sending(c, g));
    t := Apply(t, c, limit, g);
  }

  // ----- the attempt takes three requests, each within the limit, `T` in all -----

  predicate Fits(c: Config, g: Scene, limit: nat, T: nat) {
    T <= 3 * limit && (g.loop.Renew? ==> g.z + T <= g.loop.deadline)
  }

  /** The optimistic renewal was applied, its answer was an error, the read is out. */
  function Midway(c: Config, g: Scene, limit: nat, now: int, T: nat, reply: Option<Option<nat>>): State {
    Two(now, [g.prior, RecordAt(c, g.z)], [g.w0, Renewed(c, g.z, 0)],
        Sent(c, g, Attempting(g.loop, RecordAt(c, g.z), g.z, g.z + Min(limit, T), GetWait(reply))), Watching(c, g.z))
  }

  lemma LostAck(t0: Trace, c: Config, g: Scene, limit: nat, T: nat) returns (t: Trace)
    requires Usable(c) && Fits(c, g, limit, T) && Good(t0, limit) && t0.s == Opening(c, g, Watching(c, g.z))
    ensures Good(t, limit) && t.s == Midway(c, g, limit, g.z + Min(limit, T), T, None)
  {
    hide Good;
    t := Go(t0, limit, Tick(Min(limit, T)), t0.s.(now := g.z + Min(limit, T)));
    t := Go(t, limit, WriteFail(HOLDER, c.retryPeriod), Midway(c, g, limit, g.z + Min(limit, T), T, None));
  }

  lemma Reread(t0: Trace, c: Config, g: Scene, limit: nat, T: nat) returns (t: Trace)
    requires Usable(c) && Fits(c, g, limit, T) && Good(t0, limit) && t0.s == Opening(c, g, Watching(c, g.z))
    ensures Good(t, limit) && t.s == Midway(c, g, limit, g.z + Min(2 * limit, T), T, Some(Some(1)))
  {
    hide Good;
    t := LostAck(t0, c, g, limit, T);
    t := Go(t, limit, Tick(Min(2 * limit, T) - Min(limit, T)), Midway(c, g, limit, g.z + Min(2 * limit, T), T, None));
    t := Go(t, limit, ServeGet(HOLDER), Midway(c, g, limit, g.z + Min(2 * limit, T), T, Some(Some(1))));
  }

  function Rewriting(c: Config, g: Scene, limit: nat, now: int, T: nat, lease: seq<Record>, third: Write): State {
    var sent := g.z + Min(2 * limit, T);
    Two(now, lease, [g.w0, Renewed(c, g.z, 0), third],
        Site(c, Some(1), RecordAt(c, g.z), Some(RecordAt(c, g.z)), sent,
             Attempting(g.loop, RecordAt(c, g.z), g.z, sent, SlowWait(2))),
        Watching(c, g.z))
  }

  lemma Rewrite(t0: Trace, c: Config, g: Scene, limit: nat, T: nat) returns (t: Trace)
    requires Usable(c) && SceneOk(g, c) && Fits(c, g, limit, T) && Good(t0, limit) && t0.s == Opening(c, g, Watching(c, g.z))
    ensures Good(t, limit)
    ensures t.s == Rewriting(c, g, limit, g.z + Min(2 * limit, T), T, [g.prior, RecordAt(c, g.z)],
                             Write(HOLDER, Some(1), RecordAt(c, g.z), InFlight))
  {
    hide Good;
    t := Reread(t0, c, g, limit, T);
    t := Go(t, limit, GetReply(HOLDER, c.retryPeriod),
            Rewriting(c, g, limit, g.z + Min(2 * limit, T), T, [g.prior, RecordAt(c, g.z)],
                      Write(HOLDER, Some(1), RecordAt(c, g.z), InFlight)));
  }

  lemma RewriteServed(t0: Trace, c: Config, g: Scene, limit: nat, T: nat) returns (t: Trace)
    requires Usable(c) && SceneOk(g, c) && Fits(c, g, limit, T) && Good(t0, limit) && t0.s == Opening(c, g, Watching(c, g.z))
    ensures Good(t, limit)
    ensures t.s == Rewriting(c, g, limit, g.z + T, T, [g.prior, RecordAt(c, g.z), RecordAt(c, g.z)], Renewed(c, g.z, 1))
  {
    hide Good;
    WireRoundTrip(RecordAt(c, g.z));
    var lease := [g.prior, RecordAt(c, g.z), RecordAt(c, g.z)];
    t := Rewrite(t0, c, g, limit, T);
    t := Go(t, limit, ServeWrite(2), Rewriting(c, g, limit, g.z + Min(2 * limit, T), T, lease, Renewed(c, g.z, 1)));
    t := Go(t, limit, Tick(T - Min(2 * limit, T)), Rewriting(c, g, limit, g.z + T, T, lease, Renewed(c, g.z, 1)));
  }

  lemma SucceedSlowly(t0: Trace, c: Config, g: Scene, limit: nat, T: nat) returns (t: Trace)
    requires Usable(c) && SceneOk(g, c) && Fits(c, g, limit, T) && Good(t0, limit) && t0.s == Opening(c, g, Watching(c, g.z))
    ensures Good(t, limit) && Set(t.s, c, g.z) && t.s.now == g.z + T
    ensures t.s.electors[HOLDER].phase == RenewSleep(g.z + T + if g.loop.Acquire? then 0 else c.retryPeriod)
  {
    hide Good;
    t := RewriteServed(t0, c, g, limit, T);
    t := Go(t, limit, WriteAck(HOLDER), Do(t.s, WriteAck(HOLDER)));
  }

  // ----- the holder keeps its loop running without touching the Lease -----

  /** Both electors in place, the Lease still showing the record of time `z`. */
  predicate Set(s: State, c: Config, z: nat) {
    && s.electors.Keys == {HOLDER, RIVAL}
    && s.electors[HOLDER].config == c
    && s.electors[RIVAL] == Watching(c, z)
    && |s.lease| >= 2 && s.lease[|s.lease| - 1] == RecordAt(c, z)
    && (forall i :: 0 <= i < |s.lease| ==> s.lease[i].transitions == 0)
  }

  /** The holder is mid-attempt in the window ending at `deadline`, at time `now`. */
  predicate Trying(s: State, c: Config, z: nat, now: int, deadline: int) {
    && Set(s, c, z) && s.now == now <= deadline
    && var p := s.electors[HOLDER].phase;
       p.Attempting? && p.loop == Renew(deadline) && p.issued == now && (p.stage.FastWait? || p.stage == GetWait(None))
  }

  lemma Begins(s: State, id: string, loop: Loop)
    requires id in s.electors
    ensures var s' := BeginAttempt(s, id, s.electors[id], loop);
            && s'.now == s.now && s'.lease == s.lease && s'.electors == s.electors[id := s'.electors[id]]
            && s'.electors[id].config == s.electors[id].config
            && var p := s'.electors[id].phase;
               p.Attempting? && p.loop == loop && p.issued == s.now && (p.stage.FastWait? || p.stage == GetWait(None))
  {
  }

  lemma RetryOpens(t0: Trace, c: Config, z: nat, limit: nat, deadline: int) returns (t: Trace)
    requires Good(t0, limit) && Set(t0.s, c, z)
    requires t0.s.electors[HOLDER].phase == WindowSleep(deadline, t0.s.now)
    ensures Good(t, limit) && Trying(t.s, c, z, t0.s.now, deadline)
  {
    hide Good;
    GoodIsTimely(t0, limit);
    assert OnTime(t0.s.electors[HOLDER].phase, t0.s.now, limit);
    Begins(t0.s, HOLDER, Renew(deadline));
    t := Go(t0, limit, RetryInWindow(HOLDER), BeginAttempt(t0.s, HOLDER, t0.s.electors[HOLDER], Renew(deadline)));
  }

  lemma FastFails(t0: Trace, c: Config, z: nat, limit: nat, deadline: int) returns (t: Trace)
    requires Good(t0, limit) && Trying(t0.s, c, z, t0.s.now, deadline) && t0.s.electors[HOLDER].phase.stage.FastWait?
    ensures Good(t, limit) && Trying(t.s, c, z, t0.s.now, deadline) && !t.s.electors[HOLDER].phase.stage.FastWait?
  {
    hide Good;
    t := Go(t0, limit, WriteFail(HOLDER, c.retryPeriod), Do(t0.s, WriteFail(HOLDER, c.retryPeriod)));
  }

  lemma ReadFails(t0: Trace, c: Config, z: nat, limit: nat, deadline: int) returns (t: Trace)
    requires Good(t0, limit) && Trying(t0.s, c, z, t0.s.now, deadline) && t0.s.electors[HOLDER].phase.stage.GetWait?
    ensures Good(t, limit) && Set(t.s, c, z) && t.s.now == t0.s.now
    ensures t.s.electors[HOLDER].phase == WindowSleep(deadline, t0.s.now + c.retryPeriod)
  {
    hide Good;
    t := Go(t0, limit, GetFail(HOLDER, c.retryPeriod), Do(t0.s, GetFail(HOLDER, c.retryPeriod)));
  }

  /** The rest of an attempt whose requests all fail at once. */
  lemma AttemptFails(t0: Trace, c: Config, z: nat, limit: nat, deadline: int) returns (t: Trace)
    requires Good(t0, limit) && Trying(t0.s, c, z, t0.s.now, deadline)
    ensures Good(t, limit) && Set(t.s, c, z) && t.s.now == t0.s.now
    ensures t.s.electors[HOLDER].phase == WindowSleep(deadline, t0.s.now + c.retryPeriod)
  {
    hide Good;
    t := t0;
    if t.s.electors[HOLDER].phase.stage.FastWait? {
      t := FastFails(t, c, z, limit, deadline);
    }
    t := ReadFails(t, c, z, limit, deadline);
  }

  lemma {:induction false} IdleUntil(t0: Trace, c: Config, z: nat, limit: nat, T: int) returns (t: Trace)
    requires Usable(c) && Good(t0, limit) && Set(t0.s, c, z)
    requires t0.s.electors[HOLDER].phase.WindowSleep?
    requires t0.s.now <= T <= t0.s.electors[HOLDER].phase.deadline
    ensures Good(t, limit) && Set(t.s, c, z) && t.s.now == T
    ensures InRenewLoop(t.s.electors[HOLDER].phase)
    decreases T - t0.s.electors[HOLDER].phase.wake
  {
    hide Good;
    var p := t0.s.electors[HOLDER].phase;
    GoodIsTimely(t0, limit);
    assert OnTime(p, t0.s.now, limit);
    if T <= p.wake {
      t := Go(t0, limit, Tick(T - t0.s.now), t0.s.(now := T));
    } else {
      t := Go(t0, limit, Tick(p.wake - t0.s.now), t0.s.(now := p.wake));
      t := RetryOpens(t, c, z, limit, p.deadline);
      t := AttemptFails(t, c, z, limit, p.deadline);
      t := IdleUntil(t, c, z, limit, T);
    }
  }

  /** When the rival moves, counted from `z`: its lease has run out and it is awake. */
  function Moment(c: Config): nat {
    Max(c.LeaseSeconds() * NANOS_PER_SECOND, c.retryPeriod)
  }

  lemma OpenWindow(t0: Trace, c: Config, z: nat, limit: nat, deadline: int) returns (t: Trace)
    requires Good(t0, limit) && Set(t0.s, c, z)
    requires t0.s.electors[HOLDER].phase == RenewSleep(t0.s.now) && deadline == t0.s.now + c.renewDeadline
    ensures Good(t, limit) && Trying(t.s, c, z, t0.s.now, deadline)
  {
    hide Good;
    Begins(t0.s, HOLDER, Renew(deadline));
    var s := BeginAttempt(t0.s, HOLDER, t0.s.electors[HOLDER], Renew(deadline));
    t := Go(t0, limit, BeginWindow(HOLDER), s);
  }

  /** From the end of a successful attempt the loop can run until the end of the
      next renew window. */
  lemma RunOn(t0: Trace, c: Config, z: nat, limit: nat, T: int) returns (t: Trace)
    requires Usable(c) && Good(t0, limit) && Set(t0.s, c, z) && t0.s.electors[HOLDER].phase.RenewSleep?
    requires t0.s.now <= t0.s.electors[HOLDER].phase.wake
    requires t0.s.now <= T <= t0.s.electors[HOLDER].phase.wake + c.renewDeadline
    ensures Good(t, limit) && Set(t.s, c, z) && t.s.now == T && InRenewLoop(t.s.electors[HOLDER].phase)
  {
    hide Good;
    GoodIsTimely(t0, limit);
    var wake := t0.s.electors[HOLDER].phase.wake;
    if T <= wake {
      t := Go(t0, limit, Tick(T - t0.s.now), t0.s.(now := T));
    } else {
      t := Go(t0, limit, Tick(wake - t0.s.now), t0.s.(now := wake));
      t := OpenWindow(t, c, z, limit, wake + c.renewDeadline);
      t := AttemptFails(t, c, z, limit, wake + c.renewDeadline);
      t := IdleUntil(t, c, z, limit, T);
    }
  }

  lemma OpeningIsSet(c: Config, g: Scene, s: State)
    requires SceneOk(g, c) && s == Opening(c, g, Watching(c, g.z)) && g.loop == Renew(g.z + c.renewDeadline)
    ensures Set(s, c, g.z) && Trying(s, c, g.z, g.z, g.z + c.renewDeadline)
  {
  }

  /** After a renewal that takes all of its window, the loop is still running. */
  lemma StillRenewing(c: Config, limit: nat) returns (t: Trace)
    requires Usable(c) && Moment(c) <= Min(3 * limit, c.renewDeadline) + c.retryPeriod + c.renewDeadline
    ensures Good(t, limit) && Set(t.s, c, 0) && t.s.now == Moment(c) && InRenewLoop(t.s.electors[HOLDER].phase)
  {
    hide Good;
    var g, T := RenewScene(c), Moment(c);
    t := RenewAtOnce(c, limit);
    t := Watch(t, c, limit, g);
    if T <= c.renewDeadline {
      OpeningIsSet(c, g, t.s);
      t := AttemptFails(t, c, 0, limit, c.renewDeadline);
      t := IdleUntil(t, c, 0, limit, T);
    } else {
      t := SucceedSlowly(t, c, g, limit, Min(3 * limit, c.renewDeadline));
      t := RunOn(t, c, 0, limit, T);
    }
  }

  /** After an acquisition in three requests, the first renew window is open. */
  lemma StillAcquired(c: Config, limit: nat) returns (t: Trace)
    requires Usable(c) && c.LeaseSeconds() * NANOS_PER_SECOND > c.retryPeriod && Moment(c) <= 3 * limit + c.renewDeadline
    ensures Good(t, limit) && Set(t.s, c, c.retryPeriod) && t.s.now == c.retryPeriod + Moment(c)
    ensures InRenewLoop(t.s.electors[HOLDER].phase)
  {
    hide Good;
    var g, z := AcquireScene(c), c.retryPeriod;
    t := AcquireAgain(c, limit);
    t := Watch(t, c, limit, g);
    t := SucceedSlowly(t, c, g, limit, Min(3 * limit, Moment(c)));
    t := RunOn(t, c, z, limit, z + Moment(c));
  }

  // ----- the take-over -----

  /** The rival, awake at time `now`, about to read or having read version `v`. */
  function Probing(c: Config, z: nat, now: int, reply: Option<Option<nat>>): Elector {
    var own := Record(RIVAL, c.LeaseSeconds(), Some(now), Some(now), 0);
    Watching(c, z).(phase := Attempting(Acquire, own, now, now, GetWait(reply)))
  }

  function Claiming(c: Config, z: nat, now: int, v: nat, w: nat): Elector {
    var own := Record(RIVAL, c.LeaseSeconds(), Some(now), Some(now), 1);
    Watching(c, z).(cached := Some(v), phase := Attempting(Acquire, own, now, now, SlowWait(w)))
  }

  lemma Probe(t0: Trace, c: Config, z: nat, limit: nat) returns (t: Trace)
    requires Good(t0, limit) && Set(t0.s, c, z) && t0.s.now >= z + c.retryPeriod
    ensures Good(t, limit) && t.s == SetElector(t0.s, RIVAL, Probing(c, z, t0.s.now, Some(Some(|t0.s.lease| - 1))))
  {
    hide Good;
    GoodIsTimely(t0, limit);
    t := Go(t0, limit, BeginAcquire(RIVAL), SetElector(t0.s, RIVAL, Probing(c, z, t0.s.now, None)));
    t := Go(t, limit, ServeGet(RIVAL), SetElector(t0.s, RIVAL, Probing(c, z, t0.s.now, Some(Some(|t0.s.lease| - 1)))));
  }

  lemma Claim(t0: Trace, c: Config, z: nat, limit: nat) returns (t: Trace)
    requires Good(t0, limit) && Set(t0.s, c, z) && t0.s.now >= z + Moment(c) && Usable(c)
    ensures Good(t, limit)
    ensures HOLDER in t.s.electors && t.s.electors[HOLDER] == t0.s.electors[HOLDER] && t.s.lease == t0.s.lease
    ensures |t.s.writes| > 0
    ensures t.s.writes[|t.s.writes| - 1] ==
              Write(RIVAL, Some(|t0.s.lease| - 1), Claiming(c, z, t0.s.now, 0, 0).phase.record, InFlight)
  {
    hide Good;
    GoodIsTimely(t0, limit);
    var s, v := t0.s, |t0.s.lease| - 1;
    t := Probe(t0, c, z, limit);
    var probing := t.s.electors[RIVAL];
    assert Observe(probing, v, s.lease[v], s.now) == probing.(cached := Some(v));
    assert z + LeaseNanos(RecordAt(c, z)) <= s.now;
    var record := Claiming(c, z, s.now, 0, 0).phase.record;
    t := Go(t, limit, GetReply(RIVAL, c.retryPeriod),
            SetElector(Issue(s, RIVAL, Some(v), record), RIVAL, Claiming(c, z, s.now, v, |s.writes|)));
  }

  lemma Strike(t0: Trace, c: Config, z: nat, limit: nat) returns (t: Trace)
    requires Good(t0, limit) && Set(t0.s, c, z) && t0.s.now >= z + Moment(c) && Usable(c)
    requires InRenewLoop(t0.s.electors[HOLDER].phase)
    ensures Good(t, limit) && Struck(t, c)
  {
    hide Good;
    var before := Claim(t0, c, z, limit);
    GoodIsTimely(before, limit);
    var w := |before.s.writes| - 1;
    WireRoundTrip(before.s.writes[w].record);
    var s := DoServeWrite(before.s, w);
    assert forall id :: id in s.electors ==> OnTime(before.s.electors[id].phase, before.s.now, limit);
    t := Go(before, limit, ServeWrite(w), s);
  }

  /** The last step of `t` takes the Lease from a holder whose renew loop runs. */
  predicate Struck(t: Trace, c: Config) {
    && t.Then?
    && HOLDER in t.before.s.electors && InRenewLoop(t.before.s.electors[HOLDER].phase)
    && t.before.s.electors[HOLDER].config == c
    && |t.before.s.lease| > 0 && t.before.s.lease[|t.before.s.lease| - 1].holder == HOLDER
    && NoWrap(t.before.s.lease)
    && |t.s.lease| == |t.before.s.lease| + 1 && t.s.lease[|t.before.s.lease|].holder == RIVAL
  }

  // ----- traces are runs -----

  function StatesOf(t: Trace): (r: seq<State>)
    ensures r != [] && r[|r| - 1] == t.s
  {
    match t case Start(s) => [s] case Then(before, _, s) => StatesOf(before) + [s]
  }

  function StepsOf(t: Trace): (r: seq<Step>)
    ensures |r| + 1 == |StatesOf(t)|
  {
    match t case Start(_) => [] case Then(before, step, _) => StepsOf(before) + [step]
  }

  lemma {:induction false} TraceIsRun(t: Trace, limit: nat)
    requires Good(t, limit)
    ensures TimelyRun(StatesOf(t), StepsOf(t), limit)
  {
    match t
    case Start(_) =>
    case Then(before, step, s) =>
      TraceIsRun(before, limit);
      var states, steps := StatesOf(t), StepsOf(t);
      forall i | 0 <= i < |steps|
        ensures Enabled(states[i], steps[i]) && states[i + 1] == Do(states[i], steps[i])
      {
        if i < |steps| - 1 {
          assert states[i] == StatesOf(before)[i] && steps[i] == StepsOf(before)[i];
          assert states[i + 1] == StatesOf(before)[i + 1];
        }
      }
  }

  /** Step `n` of a timely run breaks exclusion for a holder configured with `c`. */
  predicate Breaks(states: seq<State>, steps: seq<Step>, limit: nat, n: int, c: Config) {
    && TimelyRun(states, steps, limit) && 0 <= n < |steps|
    && HOLDER in states[n].electors && states[n].electors[HOLDER].config == c
    && NoWrap(states[n].lease)
    && TakesOver(states, steps, n, HOLDER)
    && InRenewLoop(states[n].electors[HOLDER].phase)
  }

  lemma StruckBreaks(t: Trace, limit: nat, c: Config)
    requires Good(t, limit) && Struck(t, c)
    ensures Breaks(StatesOf(t), StepsOf(t), limit, |StepsOf(t)| - 1, c)
  {
    TraceIsRun(t, limit);
    LastTwo(t);
    hide Good, StatesOf, StepsOf, Enabled, Do;
  }

  lemma LastTwo(t: Trace)
    requires t.Then?
    ensures var states, n := StatesOf(t), |StepsOf(t)| - 1;
            n >= 0 && |states| == n + 2 && states[n] == t.before.s && states[n + 1] == t.s
  {
    var states, n := StatesOf(t), |StepsOf(t)| - 1;
    assert states[n] == StatesOf(t.before)[|StatesOf(t.before)| - 1];
  }

  /** For every accepted configuration and every request limit, a lease within
      the bound admits a timely run in which the Lease is taken over while the
      holder's renew loop runs. */
  lemma ExclusionBoundIsTight(c: Config, limit: nat) returns (t: Trace)
    requires Usable(c) && c.LeaseSeconds() * NANOS_PER_SECOND <= Slack(c, limit)
    ensures Breaks(StatesOf(t), StepsOf(t), limit, |StepsOf(t)| - 1, c)
  {
    hide Good;
    if Moment(c) <= Min(3 * limit, c.renewDeadline) + c.retryPeriod + c.renewDeadline {
      t := StillRenewing(c, limit);
      t := Strike(t, c, 0, limit);
    } else {
      t := StillAcquired(c, limit);
      t := Strike(t, c, c.retryPeriod, limit);
    }
    StruckBreaks(t, limit, c);
  }

  /** The exact condition for timed exclusion, whatever the request limit: the
      whole-second lease exceeds `Slack`. */
  lemma ExclusionExactly(c: Config, limit: nat)
    requires Usable(c)
    ensures c.LeaseSeconds() * NANOS_PER_SECOND > Slack(c, limit) <==>
            forall states, steps, n :: !Breaks(states, steps, limit, n, c)
  {
    if c.LeaseSeconds() * NANOS_PER_SECOND <= Slack(c, limit) {
      var t := ExclusionBoundIsTight(c, limit);
    } else {
      forall states, steps, n
        ensures !Breaks(states, steps, limit, n, c)
      {
        NeverBreaks(states, steps, limit, n, c);
      }
    }
  }

  /** The bound in full: three requests, the retry period and the renew deadline
      as long as three requests fit in that deadline; beyond, the larger of two
      deadlines plus the retry period and three requests plus one deadline. */
  lemma SlackInFull(c: Config, limit: nat)
    ensures 3 * limit <= c.renewDeadline ==> Slack(c, limit) == 3 * limit + c.retryPeriod + c.renewDeadline
    ensures 3 * limit > c.renewDeadline ==>
              Slack(c, limit) == Max(2 * c.renewDeadline + c.retryPeriod, 3 * limit + c.renewDeadline)
  {
  }

  lemma NeverBreaks(states: seq<State>, steps: seq<Step>, limit: nat, n: int, c: Config)
    requires c.LeaseSeconds() * NANOS_PER_SECOND > Slack(c, limit)
    ensures !Breaks(states, steps, limit, n, c)
  {
    if && TimelyRun(states, steps, limit) && 0 <= n < |steps| && NoWrap(states[n].lease)
       && HOLDER in states[n].electors && states[n].electors[HOLDER].config == c && TakesOver(states, steps, n, HOLDER)
    {
      TimedExclusion(states, steps, limit, n, HOLDER);
    }
  }

  /** One request, the retry period and the renew deadline do not suffice: the
      chart defaults (15s, 10s, 2s) with requests of 1.5s fail. */
  lemma OneRequestIsNotEnough() returns (c: Config, limit: nat, t: Trace)
    ensures c == Config(15 * NANOS_PER_SECOND, 10 * NANOS_PER_SECOND, 2 * NANOS_PER_SECOND)
    ensures c.Validate().None?
    ensures c.LeaseSeconds() * NANOS_PER_SECOND > limit + c.retryPeriod + c.renewDeadline
    ensures Breaks(StatesOf(t), StepsOf(t), limit, |StepsOf(t)| - 1, c)
  {
    c, limit := Config(15 * NANOS_PER_SECOND, 10 * NANOS_PER_SECOND, 2 * NANOS_PER_SECOND), 1_500_000_000;
    t := ExclusionBoundIsTight(c, limit);
  }
}
