/** Lease-based leader election as a step relation.

    Any number of electors share one Lease. `lease` holds every version the API
    server ever stored; an object's resourceVersion is its index. The code of an
    elector between two awaits is one step; a request an elector issued stays in
    `writes` after the elector stopped waiting for it, so it can still reach the
    server later. Time passes only in `Tick` steps. */
module LeaseElection {
  import opened Wrappers
  import opened LeaseRecord

  // ----- one elector: LeaderElector and the LeaseLock it borrows -----

  datatype Stage =
    | FastWait(w: nat)                        // optimistic renewal in flight
    | GetWait(reply: Option<Option<nat>>)     // read in flight; version read, or 404
    | CreateWait(w: nat)
    | SlowWait(w: nat)

  datatype Loop = Acquire | Renew(deadline: int)

  datatype Phase =
    | Idle(until: int)                        // between terms
    | AcquireSleep(wake: int)
    | RenewSleep(wake: int)                   // next renew window opens at wake
    | WindowSleep(deadline: int, wake: int)   // inside a renew window, after a failed attempt
    | Attempting(loop: Loop, record: Record, started: int, issued: int, stage: Stage)
    | RenewOver                               // the renew loop ended; release comes next
    | Releasing(w: nat)

  datatype Elector = Elector(
    config: Config,
    skew: int,                                // wall clock minus monotonic clock
    cached: Option<nat>,                      // version of the cached Lease object
    observed: Record,
    raw: Option<Record>,
    observedTime: int,
    steppingDown: bool,
    phase: Phase)

  predicate IsLeader(id: string, e: Elector) {
    e.observed.holder == id
  }

  function LeaseNanos(r: Record): nat {
    (if r.durationSeconds < 0 then 0 else r.durationSeconds) * NANOS_PER_SECOND
  }

  predicate IsLeaseValid(e: Elector, now: int) {
    e.observedTime + LeaseNanos(e.observed) > now
  }

  function SetObserved(e: Elector, record: Record, now: int): Elector {
    e.(observed := record, observedTime := now)
  }

  /** The record an attempt starts from. */
  function OwnRecord(id: string, e: Elector, now: int): Record {
    Record(id, e.config.LeaseSeconds(), Some(now + e.skew), Some(now + e.skew), 0)
  }

  /** `record` written as a renewal of `prior`. */
  function Renewal(record: Record, prior: Record): Record {
    record.(acquireTime := prior.acquireTime, transitions := prior.transitions)
  }

  /** The effect of a successful read of version `v`, which holds `prior`. */
  function Observe(e: Elector, v: nat, prior: Record, now: int): Elector {
    var e := e.(cached := Some(v));
    if e.raw == Some(prior) then e else SetObserved(e, prior, now).(raw := Some(prior))
  }

  predicate HeldByOther(id: string, e: Elector, prior: Record, now: int) {
    prior.holder != "" && IsLeaseValid(e, now) && !IsLeader(id, e)
  }

  function SlowRecord(id: string, e: Elector, record: Record, prior: Record): Record {
    if IsLeader(id, e) then Renewal(record, prior) else record.(transitions := prior.transitions + 1)
  }

  function ReleaseRecord(e: Elector, now: int): Record {
    Record("", 1, Some(now + e.skew), Some(now + e.skew), e.observed.transitions)
  }

  function Backoff(e: Elector): nat {
    if e.steppingDown then e.config.leaseDuration + e.config.retryPeriod else e.config.retryPeriod
  }

  predicate InRenewLoop(p: Phase) {
    p.RenewSleep? || p.WindowSleep? || (p.Attempting? && p.loop.Renew?)
  }

  predicate InAcquireLoop(p: Phase) {
    p.AcquireSleep? || (p.Attempting? && p.loop.Acquire?)
  }

  /** `TermState.leading`: from `on_started` to `on_stopped`. */
  predicate Leading(p: Phase) {
    InRenewLoop(p) || p.RenewOver? || p.Releasing?
  }

  predicate Waits(p: Phase) {
    p.Releasing? || (p.Attempting? && !p.stage.GetWait?)
  }

  function WaitsOn(p: Phase): nat
    requires Waits(p)
  {
    match p
    case Releasing(w) => w
    case Attempting(_, _, _, _, stage) => stage.w
  }

  // ----- the cluster -----

  datatype Status = InFlight | Applied(version: nat) | Rejected

  /** A create (`base.None?`) or an update of the cached version `base`. */
  datatype Write = Write(owner: string, base: Option<nat>, record: Record, status: Status)

  datatype State = State(
    now: int,
    lease: seq<Record>,
    writes: seq<Write>,
    electors: map<string, Elector>)

  datatype Step =
    | Tick(dt: nat)
    | StartTerm(id: string)
    | BeginAcquire(id: string)
    | BeginWindow(id: string)
    | RetryInWindow(id: string)
    | ServeWrite(w: nat)
    | ServeGet(id: string)
    | GetReply(id: string, nap: nat)
    | GetFail(id: string, nap: nat)
    | WriteAck(id: string)
    | WriteFail(id: string, nap: nat)
    | CancelAcquire(id: string)
    | StopRenew(id: string)
    | Release(id: string)
    | StepDown(id: string)
    | Restart(id: string)

  predicate Enabled(s: State, step: Step) {
    if step.Tick? then true
    else if step.ServeWrite? then step.w < |s.writes| && s.writes[step.w].status.InFlight?
    else
      step.id in s.electors &&
      var e := s.electors[step.id];
      match step
      case StartTerm(_) => e.phase.Idle? && s.now >= e.phase.until
      case BeginAcquire(_) => e.phase.AcquireSleep? && s.now >= e.phase.wake
      case BeginWindow(_) => e.phase.RenewSleep? && s.now >= e.phase.wake
      case RetryInWindow(_) => e.phase.WindowSleep? && s.now >= e.phase.wake
      case ServeGet(_) => e.phase.Attempting? && e.phase.stage == GetWait(None)
      case GetReply(_, nap) =>
        && e.phase.Attempting? && e.phase.stage.GetWait? && e.phase.stage.reply.Some?
        && (e.phase.stage.reply.value.Some? ==> e.phase.stage.reply.value.value < |s.lease|)
        && Jittered(e.config.retryPeriod, nap)
      case GetFail(_, nap) =>
        e.phase.Attempting? && e.phase.stage.GetWait? && Jittered(e.config.retryPeriod, nap)
      case WriteAck(_) =>
        Waits(e.phase) && WaitsOn(e.phase) < |s.writes| && s.writes[WaitsOn(e.phase)].status.Applied?
      case WriteFail(_, nap) => Waits(e.phase) && Jittered(e.config.retryPeriod, nap)
      case CancelAcquire(_) => InAcquireLoop(e.phase)
      case StopRenew(_) => InRenewLoop(e.phase)
      case Release(_) => e.phase.RenewOver?
      case StepDown(_) => Leading(e.phase)
      case Restart(_) => true
  }

  function SetElector(s: State, id: string, e: Elector): State {
    s.(electors := s.electors[id := e])
  }

  function Issue(s: State, id: string, base: Option<nat>, record: Record): State {
    s.(writes := s.writes + [Write(id, base, record, InFlight)])
  }

  function EndTerm(s: State, id: string, e: Elector): State {
    SetElector(s, id, e.(phase := Idle(s.now + Backoff(e)), steppingDown := false))
  }

  /** A new attempt: the fast path when this elector believes it holds a valid
      lease and has a cached object to update, the read otherwise. */
  function BeginAttempt(s: State, id: string, e: Elector, loop: Loop): State {
    var own := OwnRecord(id, e, s.now);
    if IsLeader(id, e) && IsLeaseValid(e, s.now) then
      var record := Renewal(own, e.observed);
      if e.cached.Some? then
        SetElector(Issue(s, id, e.cached, record), id,
                   e.(phase := Attempting(loop, record, s.now, s.now, FastWait(|s.writes|))))
      else
        SetElector(s, id, e.(phase := Attempting(loop, record, s.now, s.now, GetWait(None))))
    else
      SetElector(s, id, e.(phase := Attempting(loop, own, s.now, s.now, GetWait(None))))
  }

  function AttemptFailed(s: State, id: string, e: Elector, loop: Loop, nap: nat): State {
    SetElector(s, id, e.(phase :=
      match loop
      case Acquire => AcquireSleep(s.now + nap)
      case Renew(deadline) => WindowSleep(deadline, s.now + e.config.retryPeriod)))
  }

  /** Acquiring enters the renew loop at once; renewing sleeps a retry period. */
  function AttemptSucceeded(s: State, id: string, e: Elector, loop: Loop): State {
    SetElector(s, id, e.(phase := RenewSleep(if loop.Acquire? then s.now else s.now + e.config.retryPeriod)))
  }

  function DoServeWrite(s: State, w: nat): State
    requires w < |s.writes|
  {
    var wr := s.writes[w];
    var current := match wr.base case None => |s.lease| == 0 case Some(v) => v == |s.lease| - 1;
    if current then
      s.(lease := s.lease + [Stored(wr.record)], writes := s.writes[w := wr.(status := Applied(|s.lease|))])
    else
      s.(writes := s.writes[w := wr.(status := Rejected)])
  }

  function DoGetReply(s: State, id: string, nap: nat): State
    requires Enabled(s, GetReply(id, nap))
  {
    var e := s.electors[id];
    var p := e.phase;
    match p.stage.reply.value
    case None =>
      SetElector(Issue(s, id, None, p.record), id,
                 e.(phase := p.(issued := s.now, stage := CreateWait(|s.writes|))))
    case Some(v) =>
      var prior := s.lease[v];
      var seen := Observe(e, v, prior, s.now);
      if HeldByOther(id, seen, prior, s.now) then
        AttemptFailed(s, id, seen, p.loop, nap)
      else
        var record := SlowRecord(id, seen, p.record, prior);
        SetElector(Issue(s, id, seen.cached, record), id,
                   seen.(phase := p.(record := record, issued := s.now, stage := SlowWait(|s.writes|))))
  }

  function DoWriteAck(s: State, id: string): State
    requires Enabled(s, WriteAck(id))
  {
    var e := s.electors[id];
    var wr := s.writes[WaitsOn(e.phase)];
    var acked := SetObserved(e.(cached := Some(wr.status.version)), wr.record, s.now);
    match e.phase
    case Releasing(_) => EndTerm(s, id, acked)
    case Attempting(loop, _, _, _, _) => AttemptSucceeded(s, id, acked, loop)
  }

  function DoWriteFail(s: State, id: string, nap: nat): State
    requires Enabled(s, WriteFail(id, nap))
  {
    var e := s.electors[id];
    match e.phase
    case Releasing(_) => EndTerm(s, id, e)
    case Attempting(loop, _, _, _, stage) =>
      if stage.FastWait? then
        SetElector(s, id, e.(phase := e.phase.(issued := s.now, stage := GetWait(None))))
      else
        AttemptFailed(s, id, e, loop, nap)
  }

  function DoRelease(s: State, id: string): State
    requires Enabled(s, Release(id))
  {
    var e := s.electors[id];
    if IsLeader(id, e) && e.cached.Some? then
      SetElector(Issue(s, id, e.cached, ReleaseRecord(e, s.now)), id, e.(phase := Releasing(|s.writes|)))
    else
      EndTerm(s, id, e)
  }

  function Do(s: State, step: Step): (s': State)
    requires Enabled(s, step)
  {
    match step
    case Tick(dt) => s.(now := s.now + dt)
    case ServeWrite(w) => DoServeWrite(s, w)
    case StartTerm(id) =>
      var e := s.electors[id];
      SetElector(s, id, e.(observed := DEFAULT_RECORD, raw := None, observedTime := s.now,
                           phase := AcquireSleep(s.now)))
    case BeginAcquire(id) => BeginAttempt(s, id, s.electors[id], Acquire)
    case BeginWindow(id) =>
      BeginAttempt(s, id, s.electors[id], Renew(s.now + s.electors[id].config.renewDeadline))
    case RetryInWindow(id) => BeginAttempt(s, id, s.electors[id], Renew(s.electors[id].phase.deadline))
    case ServeGet(id) =>
      var e := s.electors[id];
      var reply := if |s.lease| == 0 then None else Some(|s.lease| - 1);
      SetElector(s, id, e.(phase := e.phase.(stage := GetWait(Some(reply)))))
    case GetReply(id, nap) => DoGetReply(s, id, nap)
    case GetFail(id, nap) => AttemptFailed(s, id, s.electors[id], s.electors[id].phase.loop, nap)
    case WriteAck(id) => DoWriteAck(s, id)
    case WriteFail(id, nap) => DoWriteFail(s, id, nap)
    case CancelAcquire(id) => EndTerm(s, id, s.electors[id])
    case StopRenew(id) => SetElector(s, id, s.electors[id].(phase := RenewOver))
    case Release(id) => DoRelease(s, id)
    case StepDown(id) =>
      var e := s.electors[id].(steppingDown := true);
      SetElector(s, id, if InRenewLoop(e.phase) then e.(phase := RenewOver) else e)
    case Restart(id) =>
      var e := s.electors[id];
      SetElector(s, id, Elector(e.config, e.skew, None, DEFAULT_RECORD, None, s.now, false, Idle(s.now)))
  }

  /** Electors that have not run yet, with distinct (map keys) and non-empty
      identities, and a Lease that is absent or holds any well-formed record. */
  predicate Init(s: State) {
    && |s.lease| <= 1
    && (forall i :: 0 <= i < |s.lease| ==> FitsI32(s.lease[i].transitions))
    && s.writes == []
    && (forall id :: id in s.electors ==>
          && id != ""
          && s.electors[id].cached.None?
          && s.electors[id].observed == DEFAULT_RECORD
          && s.electors[id].raw.None?
          && s.electors[id].phase.Idle?)
  }

  /** A run: every state follows from the one before by an enabled step. */
  predicate Run(states: seq<State>, steps: seq<Step>) {
    && |states| == |steps| + 1
    && forall i :: 0 <= i < |steps| ==> Enabled(states[i], steps[i]) && states[i + 1] == Do(states[i], steps[i])
  }
}
