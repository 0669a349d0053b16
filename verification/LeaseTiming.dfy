/** Timed exclusion: with prompt timers and bounded requests, the Lease of a
    holder whose renew loop still runs is never taken over. */
module LeaseTiming {
  import opened Wrappers
  import opened LeaseRecord
  import opened LeaseElection
  import opened LeaseFencing

  // ----- the timing hypothesis -----

  /** Every request is answered (or abandoned) within `limit` of being issued,
      and the renew loop's timers fire on time. Clocks run at equal rates: they
      differ by the constant `skew` of each elector. */
  predicate Timely(s: State, limit: nat) {
    forall id :: id in s.electors ==> OnTime(s.electors[id].phase, s.now, limit)
  }

  predicate OnTime(p: Phase, now: int, limit: nat) {
    match p
    case Attempting(loop, _, _, issued, _) => now <= issued + limit && (loop.Renew? ==> now <= loop.deadline)
    case RenewSleep(wake) => now <= wake
    case WindowSleep(deadline, wake) => now <= deadline && now <= wake
    case _ => true
  }

  /** The latest instant at which the renew loop is still running, unless a
      further renewal succeeds before. */
  function LoopEnd(e: Elector): int
    requires InRenewLoop(e.phase)
  {
    match e.phase
    case RenewSleep(wake) => wake + e.config.renewDeadline
    case WindowSleep(deadline, _) => deadline
    case Attempting(loop, _, _, _, _) => loop.deadline
  }

  function Min(a: nat, b: nat): nat {
    if a < b then a else b
  }

  function Max(a: nat, b: nat): nat {
    if a < b then b else a
  }

  /** How long the renew loop can go on after the instant its last renewal is
      stamped with. An attempt is at most three requests: fast write, read, slow
      write. One that acquires opens the first renew window at once; one that
      renews ends by the deadline of its window and is followed by a sleep. */
  function Slack(c: Config, limit: nat): nat {
    Max(3 * limit, Min(3 * limit, c.renewDeadline) + c.retryPeriod) + c.renewDeadline
  }

  // ----- records carry the instant their attempt started -----

  datatype Clock = Clock(config: Config, skew: int)

  function Clocks(m: map<string, Elector>): map<string, Clock> {
    map id | id in m :: Clock(m[id].config, m[id].skew)
  }

  type Clockwork = map<string, Clock>

  function StampOf(c: Clockwork, r: Record): int {
    if r.holder in c && r.renewTime.Some? then r.renewTime.value - c[r.holder].skew else 0
  }

  predicate RecordTimes(c: Clockwork, now: int, r: Record) {
    r.holder in c ==>
      && r.renewTime.Some?
      && StampOf(c, r) <= now
      && r.durationSeconds == c[r.holder].config.LeaseSeconds()
  }

  predicate StampsOrdered(c: Clockwork, lease: seq<Record>) {
    forall i, j :: 0 <= i <= j < |lease| && lease[i].holder == lease[j].holder ==>
      StampOf(c, lease[i]) <= StampOf(c, lease[j])
  }

  predicate StampsBy(c: Clockwork, lease: seq<Record>, id: string, n: nat, t: int)
    requires n <= |lease|
  {
    forall i :: 0 <= i < n && lease[i].holder == id ==> StampOf(c, lease[i]) <= t
  }

  /** A request in flight is newer than everything its owner wrote up to the
      version it replaces; a take-over was issued after the lease ran out. */
  predicate WriteTimes(c: Clockwork, now: int, lease: seq<Record>, wr: Write) {
    wr.status.InFlight? ==>
      && RecordTimes(c, now, wr.record)
      && (wr.base.Some? && wr.base.value < |lease| && wr.record.holder != "" ==>
            && StampsBy(c, lease, wr.owner, wr.base.value + 1, StampOf(c, wr.record))
            && var prior := lease[wr.base.value];
               (prior.holder in c && prior.holder != wr.owner ==> StampOf(c, prior) + LeaseNanos(prior) <= now))
  }

  predicate WriteBy(c: Clockwork, wr: Write, id: string, t: int) {
    wr.owner == id && wr.status.InFlight? && wr.record.holder == id ==> StampOf(c, wr.record) <= t
  }

  /** While `e` attempts, nothing it ever wrote is newer than the attempt. */
  predicate AttemptTimes(c: Clockwork, now: int, lease: seq<Record>, writes: seq<Write>, limit: nat, id: string, e: Elector) {
    e.phase.Attempting? ==>
      var p := e.phase;
      && p.started <= p.issued <= now
      && p.issued <= p.started + (match p.stage case FastWait(_) => 0 case GetWait(_) => limit case _ => 2 * limit)
      && (p.loop.Renew? ==> p.loop.deadline <= p.started + e.config.renewDeadline)
      && p.record.renewTime == Some(p.started + e.skew)
      && p.record.durationSeconds == e.config.LeaseSeconds()
      && StampsBy(c, lease, id, |lease|, p.started)
      && (forall w :: 0 <= w < |writes| ==> WriteBy(c, writes[w], id, p.started))
  }

  predicate LoopBounded(c: Clockwork, lease: seq<Record>, limit: nat, id: string, e: Elector) {
    InRenewLoop(e.phase) ==>
      exists k :: 0 <= k < |lease| && lease[k].holder == id && LoopEnd(e) <= StampOf(c, lease[k]) + Slack(e.config, limit)
  }

  predicate ElectorTimes(c: Clockwork, now: int, lease: seq<Record>, writes: seq<Write>, limit: nat, id: string, e: Elector) {
    && id in c && c[id] == Clock(e.config, e.skew)
    && AttemptTimes(c, now, lease, writes, limit, id, e)
    && (e.phase.WindowSleep? ==> e.phase.deadline <= now + e.config.renewDeadline)
    && LoopBounded(c, lease, limit, id, e)
    && RecordTimes(c, e.observedTime, e.observed)
  }

  predicate TimedInvOver(c: Clockwork, s: State, limit: nat) {
    && c == Clocks(s.electors)
    && (forall id :: id in c ==> id != "" && FitsI32(c[id].config.LeaseSeconds()))
    && (forall i :: 0 <= i < |s.lease| ==> RecordTimes(c, s.now, s.lease[i]))
    && StampsOrdered(c, s.lease)
    && (forall w :: 0 <= w < |s.writes| ==> WriteTimes(c, s.now, s.lease, s.writes[w]))
    && (forall id :: id in s.electors ==> ElectorTimes(c, s.now, s.lease, s.writes, limit, id, s.electors[id]))
  }

  // ----- every timely step keeps the invariant -----

  lemma TimedElectorStep(c: Clockwork, s: State, limit: nat, id: string, e: Elector)
    requires TimedInvOver(c, s, limit) && id in s.electors
    requires ElectorTimes(c, s.now, s.lease, s.writes, limit, id, e)
    ensures TimedInvOver(c, SetElector(s, id, e), limit)
  {
    var s' := SetElector(s, id, e);
    assert Clocks(s'.electors) == c;
  }

  lemma TimedRequestStep(c: Clockwork, s: State, limit: nat, id: string, e: Elector, base: Option<nat>, record: Record)
    requires TimedInvOver(c, s, limit) && id in s.electors
    requires ElectorTimes(c, s.now, s.lease, s.writes + [Write(id, base, record, InFlight)], limit, id, e)
    requires WriteTimes(c, s.now, s.lease, Write(id, base, record, InFlight))
    ensures TimedInvOver(c, SetElector(Issue(s, id, base, record), id, e), limit)
  {
    var wr := Write(id, base, record, InFlight);
    var s' := SetElector(Issue(s, id, base, record), id, e);
    assert Clocks(s'.electors) == c;
    forall i | i in s'.electors
      ensures ElectorTimes(c, s'.now, s'.lease, s'.writes, limit, i, s'.electors[i])
    {
      if i != id {
        assert ElectorTimes(c, s.now, s.lease, s.writes, limit, i, s.electors[i]);
        assert forall t :: WriteBy(c, wr, i, t);
      }
    }
  }

  lemma TimedTick(c: Clockwork, s: State, limit: nat, dt: nat)
    requires TimedInvOver(c, s, limit)
    ensures TimedInvOver(c, s.(now := s.now + dt), limit)
  {
  }

  /** The record of a served request is stored without loss, except possibly its counter. */
  lemma StoredTimes(c: Clockwork, now: int, r: Record)
    requires RecordTimes(c, now, r)
    requires forall id :: id in c ==> FitsI32(c[id].config.LeaseSeconds())
    ensures RecordTimes(c, now, Stored(r)) && StampOf(c, Stored(r)) == StampOf(c, r) && Stored(r).holder == r.holder
  {
  }

  lemma ServedLoop(c: Clockwork, lease: seq<Record>, r: Record, limit: nat, id: string, e: Elector)
    requires LoopBounded(c, lease, limit, id, e)
    ensures LoopBounded(c, lease + [r], limit, id, e)
  {
    if InRenewLoop(e.phase) {
      var k :| 0 <= k < |lease| && lease[k].holder == id && LoopEnd(e) <= StampOf(c, lease[k]) + Slack(e.config, limit);
      assert (lease + [r])[k] == lease[k];
    }
  }

  lemma ServedAttempt(c: Clockwork, s: State, limit: nat, w: nat, id: string, e: Elector)
    requires Enabled(s, ServeWrite(w))
    requires AttemptTimes(c, s.now, s.lease, s.writes, limit, id, e)
    requires StampOf(c, Stored(s.writes[w].record)) == StampOf(c, s.writes[w].record)
    requires s.writes[w].record.holder == id ==> s.writes[w].owner == id
    ensures AttemptTimes(c, s.now, DoServeWrite(s, w).lease, DoServeWrite(s, w).writes, limit, id, e)
  {
    var s' := DoServeWrite(s, w);
    if e.phase.Attempting? {
      assert WriteBy(c, s.writes[w], id, e.phase.started);
      forall k | 0 <= k < |s'.writes|
        ensures WriteBy(c, s'.writes[k], id, e.phase.started)
      {
        assert WriteBy(c, s.writes[k], id, e.phase.started);
      }
    }
  }

  lemma ServedElectorTimes(c: Clockwork, s: State, limit: nat, w: nat, id: string)
    requires Enabled(s, ServeWrite(w)) && id in s.electors && id != ""
    requires ElectorTimes(c, s.now, s.lease, s.writes, limit, id, s.electors[id])
    requires WriteInv(s.lease, s.electors, s.writes[w])
    requires StampOf(c, Stored(s.writes[w].record)) == StampOf(c, s.writes[w].record)
    ensures ElectorTimes(c, s.now, DoServeWrite(s, w).lease, DoServeWrite(s, w).writes, limit, id, s.electors[id])
  {
    ServedLoop(c, s.lease, Stored(s.writes[w].record), limit, id, s.electors[id]);
    ServedAttempt(c, s, limit, w, id, s.electors[id]);
  }

  lemma ServedWriteTimes(c: Clockwork, s: State, limit: nat, w: nat, k: nat)
    requires Inv(s) && TimedInvOver(c, s, limit) && Enabled(s, ServeWrite(w)) && k < |s.writes|
    ensures var s' := DoServeWrite(s, w); WriteTimes(c, s'.now, s'.lease, s'.writes[k])
  {
    assert WriteInv(s.lease, s.electors, s.writes[k]) && WriteTimes(c, s.now, s.lease, s.writes[k]);
  }

  lemma ServedLeaseTimes(c: Clockwork, now: int, lease: seq<Record>, r: Record)
    requires StampsOrdered(c, lease) && StampsBy(c, lease, r.holder, |lease|, StampOf(c, r))
    ensures StampsOrdered(c, lease + [r])
  {
  }

  /** A request that passes the version check is the newest of its owner. */
  lemma AppliedIsNewest(c: Clockwork, s: State, limit: nat, w: nat)
    requires Inv(s) && TimedInvOver(c, s, limit) && Enabled(s, ServeWrite(w))
    requires |DoServeWrite(s, w).lease| > |s.lease|
    ensures RecordTimes(c, s.now, Stored(s.writes[w].record))
    ensures StampsBy(c, s.lease, s.writes[w].record.holder, |s.lease|, StampOf(c, s.writes[w].record))
  {
    var wr := s.writes[w];
    assert WriteInv(s.lease, s.electors, wr) && WriteTimes(c, s.now, s.lease, wr);
    StoredTimes(c, s.now, wr.record);
  }

  lemma TimedServeWrite(c: Clockwork, s: State, limit: nat, w: nat)
    requires Inv(s) && TimedInvOver(c, s, limit) && Enabled(s, ServeWrite(w))
    ensures TimedInvOver(c, DoServeWrite(s, w), limit)
  {
    var s', wr := DoServeWrite(s, w), s.writes[w];
    assert WriteTimes(c, s.now, s.lease, wr);
    StoredTimes(c, s.now, wr.record);
    if |s'.lease| > |s.lease| {
      AppliedIsNewest(c, s, limit, w);
      ServedLeaseTimes(c, s.now, s.lease, Stored(wr.record));
    }
    hide WriteTimes, ElectorTimes, WriteInv, ElectorInv;
    forall k | 0 <= k < |s'.writes|
      ensures WriteTimes(c, s'.now, s'.lease, s'.writes[k])
    {
      ServedWriteTimes(c, s, limit, w, k);
    }
    forall id | id in s'.electors
      ensures ElectorTimes(c, s'.now, s'.lease, s'.writes, limit, id, s'.electors[id])
    {
      assert ElectorTimes(c, s.now, s.lease, s.writes, limit, id, s.electors[id]);
      assert WriteInv(s.lease, s.electors, wr);
      ServedElectorTimes(c, s, limit, w, id);
    }
  }

  lemma StampsByNow(c: Clockwork, s: State, limit: nat, id: string)
    requires TimedInvOver(c, s, limit) && id in s.electors
    ensures StampsBy(c, s.lease, id, |s.lease|, s.now)
    ensures forall w :: 0 <= w < |s.writes| ==> WriteBy(c, s.writes[w], id, s.now)
  {
    forall w | 0 <= w < |s.writes|
      ensures WriteBy(c, s.writes[w], id, s.now)
    {
      assert WriteTimes(c, s.now, s.lease, s.writes[w]);
    }
  }

  lemma TimedBeginAttempt(c: Clockwork, s: State, limit: nat, id: string, loop: Loop)
    requires Inv(s) && TimedInvOver(c, s, limit) && id in s.electors
    requires loop.Renew? ==> loop.deadline <= s.now + s.electors[id].config.renewDeadline
    requires LoopBounded(c, s.lease, limit, id, s.electors[id].(phase := if loop.Acquire? then AcquireSleep(0) else WindowSleep(loop.deadline, 0)))
    ensures TimedInvOver(c, BeginAttempt(s, id, s.electors[id], loop), limit)
  {
    var e := s.electors[id];
    assert ElectorInv(s.lease, s.writes, id, e) && ElectorTimes(c, s.now, s.lease, s.writes, limit, id, e);
    StampsByNow(c, s, limit, id);
    var own := OwnRecord(id, e, s.now);
    if IsLeader(id, e) && IsLeaseValid(e, s.now) {
      var record := Renewal(own, e.observed);
      TimedRequestStep(c, s, limit, id, e.(phase := Attempting(loop, record, s.now, s.now, FastWait(|s.writes|))), e.cached, record);
    } else {
      TimedElectorStep(c, s, limit, id, e.(phase := Attempting(loop, own, s.now, s.now, GetWait(None))));
    }
  }

  lemma TimedBegin(c: Clockwork, s: State, limit: nat, step: Step)
    requires Inv(s) && TimedInvOver(c, s, limit) && Timely(s, limit) && Enabled(s, step)
    requires step.BeginAcquire? || step.BeginWindow? || step.RetryInWindow?
    ensures TimedInvOver(c, Do(s, step), limit)
  {
    var id := step.id;
    var e := s.electors[id];
    var loop := match step
      case BeginAcquire(_) => Acquire
      case BeginWindow(_) => Renew(s.now + e.config.renewDeadline)
      case RetryInWindow(_) => Renew(e.phase.deadline);
    assert Do(s, step) == BeginAttempt(s, id, e, loop);
    assert LoopBounded(c, s.lease, limit, id, e.(phase := if loop.Acquire? then AcquireSleep(0) else WindowSleep(loop.deadline, 0))) by {
      assert ElectorTimes(c, s.now, s.lease, s.writes, limit, id, e) && OnTime(e.phase, s.now, limit);
    }
    TimedBeginAttempt(c, s, limit, id, loop);
  }

  lemma TimedSlowWrite(c: Clockwork, s: State, limit: nat, id: string, v: nat)
    requires Inv(s) && TimedInvOver(c, s, limit) && Timely(s, limit) && id in s.electors
    requires s.electors[id].phase.Attempting? && s.electors[id].phase.stage == GetWait(Some(Some(v))) && v < |s.lease|
    requires !HeldByOther(id, Observe(s.electors[id], v, s.lease[v], s.now), s.lease[v], s.now)
    ensures var e := s.electors[id];
            var seen := Observe(e, v, s.lease[v], s.now);
            var record := SlowRecord(id, seen, e.phase.record, s.lease[v]);
            var e' := seen.(phase := e.phase.(record := record, issued := s.now, stage := SlowWait(|s.writes|)));
            TimedInvOver(c, SetElector(Issue(s, id, seen.cached, record), id, e'), limit)
  {
    var e := s.electors[id];
    assert OnTime(e.phase, s.now, limit);
    assert ElectorTimes(c, s.now, s.lease, s.writes, limit, id, e);
    var seen := Observe(e, v, s.lease[v], s.now);
    var record := SlowRecord(id, seen, e.phase.record, s.lease[v]);
    var e' := seen.(phase := e.phase.(record := record, issued := s.now, stage := SlowWait(|s.writes|)));
    ObservedLate(c, s, limit, id, v);
    SlowWriteTimes(c, s, limit, id, v);
    hide Inv, WriteTimes;
    TimedRequestStep(c, s, limit, id, e', seen.cached, record);
  }

  /** A slow write is newer than what its owner wrote, and no early take-over. */
  lemma SlowWriteTimes(c: Clockwork, s: State, limit: nat, id: string, v: nat)
    requires Inv(s) && TimedInvOver(c, s, limit) && id in s.electors
    requires s.electors[id].phase.Attempting? && s.electors[id].phase.stage == GetWait(Some(Some(v))) && v < |s.lease|
    requires !HeldByOther(id, Observe(s.electors[id], v, s.lease[v], s.now), s.lease[v], s.now)
    ensures var e := s.electors[id];
            var seen := Observe(e, v, s.lease[v], s.now);
            WriteTimes(c, s.now, s.lease, Write(id, seen.cached, SlowRecord(id, seen, e.phase.record, s.lease[v]), InFlight))
  {
    var e := s.electors[id];
    assert ElectorInv(s.lease, s.writes, id, e);
    assert ElectorTimes(c, s.now, s.lease, s.writes, limit, id, e);
    ObserveKeepsBelief(s.lease, id, e, v, s.now);
    ObservedLate(c, s, limit, id, v);
  }

  /** What an elector has observed, it observed no earlier than it was written. */
  lemma ObservedLate(c: Clockwork, s: State, limit: nat, id: string, v: nat)
    requires TimedInvOver(c, s, limit) && id in s.electors && v < |s.lease|
    ensures var seen := Observe(s.electors[id], v, s.lease[v], s.now);
            RecordTimes(c, seen.observedTime, seen.observed)
  {
    assert ElectorTimes(c, s.now, s.lease, s.writes, limit, id, s.electors[id]);
    assert RecordTimes(c, s.now, s.lease[v]);
  }

  lemma TimedGetReply(c: Clockwork, s: State, limit: nat, step: Step)
    requires Inv(s) && TimedInvOver(c, s, limit) && Timely(s, limit) && step.GetReply? && Enabled(s, step)
    ensures TimedInvOver(c, Do(s, step), limit)
  {
    var id := step.id;
    var e := s.electors[id];
    assert ElectorTimes(c, s.now, s.lease, s.writes, limit, id, e) && OnTime(e.phase, s.now, limit);
    assert ElectorInv(s.lease, s.writes, id, e);
    match e.phase.stage.reply.value
    case None =>
      TimedRequestStep(c, s, limit, id, e.(phase := e.phase.(issued := s.now, stage := CreateWait(|s.writes|))), None, e.phase.record);
    case Some(v) =>
      var seen := Observe(e, v, s.lease[v], s.now);
      ObservedLate(c, s, limit, id, v);
      if HeldByOther(id, seen, s.lease[v], s.now) {
        TimedElectorStep(c, s, limit, id, AttemptFailed(s, id, seen, e.phase.loop, step.nap).electors[id]);
      } else {
        TimedSlowWrite(c, s, limit, id, v);
      }
  }

  /** A successful attempt moves the end of the renew loop to at most `Slack`
      after the instant its record is stamped with. */
  lemma TimedWriteAck(c: Clockwork, s: State, limit: nat, step: Step)
    requires Inv(s) && TimedInvOver(c, s, limit) && Timely(s, limit) && step.WriteAck? && Enabled(s, step)
    ensures TimedInvOver(c, Do(s, step), limit)
  {
    var id := step.id;
    var e := s.electors[id];
    var wr := s.writes[WaitsOn(e.phase)];
    assert ElectorTimes(c, s.now, s.lease, s.writes, limit, id, e) && OnTime(e.phase, s.now, limit);
    assert ElectorInv(s.lease, s.writes, id, e) && WriteInv(s.lease, s.electors, wr);
    var e' := Do(s, step).electors[id];
    if e.phase.Attempting? {
      StoredTimes(c, s.now, wr.record);
      assert StampOf(c, s.lease[wr.status.version]) == e.phase.started;
      assert LoopEnd(e') <= StampOf(c, s.lease[wr.status.version]) + Slack(e.config, limit);
    }
    TimedElectorStep(c, s, limit, id, e');
  }

  lemma TimedOther(c: Clockwork, s: State, limit: nat, step: Step)
    requires Inv(s) && TimedInvOver(c, s, limit) && Timely(s, limit) && Enabled(s, step)
    requires step.StartTerm? || step.ServeGet? || step.GetFail? || step.CancelAcquire?
             || step.StopRenew? || step.StepDown? || step.Restart?
    ensures TimedInvOver(c, Do(s, step), limit)
  {
    hide Inv;
    var e := s.electors[step.id];
    assert ElectorTimes(c, s.now, s.lease, s.writes, limit, step.id, e) && OnTime(e.phase, s.now, limit);
    TimedElectorStep(c, s, limit, step.id, Do(s, step).electors[step.id]);
  }

  lemma TimedWriteFail(c: Clockwork, s: State, limit: nat, step: Step)
    requires TimedInvOver(c, s, limit) && Timely(s, limit) && step.WriteFail? && Enabled(s, step)
    ensures TimedInvOver(c, Do(s, step), limit)
  {
    var e := s.electors[step.id];
    assert ElectorTimes(c, s.now, s.lease, s.writes, limit, step.id, e) && OnTime(e.phase, s.now, limit);
    TimedElectorStep(c, s, limit, step.id, Do(s, step).electors[step.id]);
  }

  lemma TimedRelease(c: Clockwork, s: State, limit: nat, step: Step)
    requires Inv(s) && TimedInvOver(c, s, limit) && step.Release? && Enabled(s, step)
    ensures TimedInvOver(c, Do(s, step), limit)
  {
    var e := s.electors[step.id];
    assert ElectorTimes(c, s.now, s.lease, s.writes, limit, step.id, e);
    if IsLeader(step.id, e) && e.cached.Some? {
      TimedRequestStep(c, s, limit, step.id, e.(phase := Releasing(|s.writes|)), e.cached, ReleaseRecord(e, s.now));
    } else {
      TimedElectorStep(c, s, limit, step.id, EndTerm(s, step.id, e).electors[step.id]);
    }
  }

  lemma TimedStep(c: Clockwork, s: State, limit: nat, step: Step)
    requires Inv(s) && TimedInvOver(c, s, limit) && Timely(s, limit) && Enabled(s, step)
    ensures TimedInvOver(c, Do(s, step), limit)
  {
    if step.Tick? {
      TimedTick(c, s, limit, step.dt);
    } else if step.ServeWrite? {
      TimedServeWrite(c, s, limit, step.w);
    } else if step.BeginAcquire? || step.BeginWindow? || step.RetryInWindow? {
      TimedBegin(c, s, limit, step);
    } else if step.GetReply? {
      TimedGetReply(c, s, limit, step);
    } else if step.WriteAck? {
      TimedWriteAck(c, s, limit, step);
    } else if step.Release? {
      TimedRelease(c, s, limit, step);
    } else if step.WriteFail? {
      TimedWriteFail(c, s, limit, step);
    } else {
      TimedOther(c, s, limit, step);
    }
  }

  /** The start of a timed run: the Lease is absent, or its record is not from
      the future and carries its holder's configured duration. */
  predicate TimedInit(s: State) {
    && Init(s)
    && (forall id :: id in s.electors ==> FitsI32(s.electors[id].config.LeaseSeconds()))
    && (forall i :: 0 <= i < |s.lease| ==> RecordTimes(Clocks(s.electors), s.now, s.lease[i]))
  }

  predicate TimelyRun(states: seq<State>, steps: seq<Step>, limit: nat) {
    Run(states, steps) && TimedInit(states[0]) && forall i :: 0 <= i < |states| ==> Timely(states[i], limit)
  }

  lemma {:induction false} TimedRunInv(states: seq<State>, steps: seq<Step>, limit: nat, n: nat)
    requires TimelyRun(states, steps, limit) && n < |states| && NoWrap(states[n].lease)
    ensures Inv(states[n]) && TimedInvOver(Clocks(states[0].electors), states[n], limit)
  {
    RunInv(states, steps, n);
    if n > 0 {
      LeaseOnlyGrows(states[n - 1], steps[n - 1]);
      TimedRunInv(states, steps, limit, n - 1);
      TimedStep(Clocks(states[0].electors), states[n - 1], limit, steps[n - 1]);
    }
  }

  /** Step `n` lets `challenger` take an unreleased Lease away from `holder`. */
  predicate TakesOver(states: seq<State>, steps: seq<Step>, n: nat, holder: string)
    requires Run(states, steps) && n < |steps|
  {
    var before, after := states[n].lease, states[n + 1].lease;
    && |before| > 0 && |after| > |before|
    && before[|before| - 1].holder == holder && holder != ""
    && after[|before|].holder != "" && after[|before|].holder != holder
  }

  /** A holder whose renew loop runs has a Lease record that is not older than `Slack`. */
  lemma RunningLoopIsFresh(c: Clockwork, s: State, limit: nat, id: string)
    requires TimedInvOver(c, s, limit) && Timely(s, limit) && id in s.electors
    requires s.lease != [] && s.lease[|s.lease| - 1].holder == id
    ensures InRenewLoop(s.electors[id].phase) ==>
              s.now <= StampOf(c, s.lease[|s.lease| - 1]) + Slack(s.electors[id].config, limit)
  {
    var e := s.electors[id];
    assert ElectorTimes(c, s.now, s.lease, s.writes, limit, id, e) && OnTime(e.phase, s.now, limit);
    if InRenewLoop(e.phase) {
      var k :| 0 <= k < |s.lease| && s.lease[k].holder == id && LoopEnd(e) <= StampOf(c, s.lease[k]) + Slack(e.config, limit);
      assert StampOf(c, s.lease[k]) <= StampOf(c, s.lease[|s.lease| - 1]);
    }
  }

  /** Timed exclusion. When every request is answered within `limit` and the
      holder's whole-second lease exceeds `Slack` (three requests plus its retry
      period plus its renew deadline, if three requests fit in that deadline),
      no take-over of its unreleased Lease is applied while its renew loop runs. */
  lemma TimedExclusion(states: seq<State>, steps: seq<Step>, limit: nat, n: nat, holder: string)
    requires TimelyRun(states, steps, limit) && n < |steps| && NoWrap(states[n].lease)
    requires holder in states[n].electors && TakesOver(states, steps, n, holder)
    requires var c := states[n].electors[holder].config;
             c.LeaseSeconds() * NANOS_PER_SECOND > Slack(c, limit)
    ensures !InRenewLoop(states[n].electors[holder].phase)
  {
    var s := states[n];
    var c := Clocks(states[0].electors);
    TimedRunInv(states, steps, limit, n);
    OnlyCurrentElectorsWrite(states, steps, n);
    var last := s.lease[|s.lease| - 1];
    assert WriteTimes(c, s.now, s.lease, s.writes[steps[n].w]) && RecordTimes(c, s.now, last);
    assert StampOf(c, last) + LeaseNanos(last) <= s.now;
    RunningLoopIsFresh(c, s, limit, holder);
  }
}
