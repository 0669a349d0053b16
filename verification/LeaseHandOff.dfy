/** A voluntary step-down hands the Lease to somebody else: the stepping-down
    instance sleeps longer than any standby's jittered retry. */
module LeaseHandOff {
  import opened Wrappers
  import opened LeaseRecord
  import opened LeaseElection
  import opened LeaseFencing

  /** A sleep in the acquire loop never ends later than the largest jitter from
      now, and no request is issued in the future. */
  predicate Bounded(e: Elector, now: int) {
    && (e.phase.AcquireSleep? ==> 10 * e.phase.wake <= 10 * now + 22 * e.config.retryPeriod)
    && (e.phase.Attempting? ==> e.phase.issued <= now)
  }

  predicate SleepBounded(s: State) {
    forall id :: id in s.electors ==> Bounded(s.electors[id], s.now)
  }

  lemma SleepBoundedStep(s: State, step: Step)
    requires SleepBounded(s) && Enabled(s, step)
    ensures SleepBounded(Do(s, step))
  {
    var s' := Do(s, step);
    forall id | id in s'.electors
      ensures Bounded(s'.electors[id], s'.now)
    {
      assert id in s.electors && Bounded(s.electors[id], s.now);
    }
  }

  lemma {:induction false} RunSleepBounded(states: seq<State>, steps: seq<Step>, n: nat)
    requires Run(states, steps) && Init(states[0]) && n < |states|
    ensures SleepBounded(states[n])
  {
    if n > 0 {
      RunSleepBounded(states, steps, n - 1);
      SleepBoundedStep(states[n - 1], steps[n - 1]);
    }
  }

  /** Requests take no time and the standby's timer fires on time. */
  predicate Instant(p: Phase, now: int) {
    match p
    case AcquireSleep(wake) => now <= wake
    case Attempting(_, _, _, issued, _) => now <= issued
    case _ => true
  }

  /** The steps excluded while the Lease is handed over: a spurious failure or
      cancellation of the standby, and a restart of either process. */
  predicate Interferes(s: State, step: Step, leaver: string, standby: string) {
    match step
    case GetFail(id, _) => id == standby
    case WriteFail(id, _) =>
      && id == standby && standby in s.electors && Waits(s.electors[standby].phase)
      && WaitsOn(s.electors[standby].phase) < |s.writes|
      && !s.writes[WaitsOn(s.electors[standby].phase)].status.Rejected?
    case CancelAcquire(id) => id == standby
    case Restart(id) => id == standby || id == leaver
    case StartTerm(id) => id == leaver
    case _ => false
  }

  /** The standby is on its way to the released version `r`: it attempts or will
      attempt by `tenBound`, in tenths, and an attempt under way that cannot take
      `r` any more ends early enough for the next one. */
  predicate Approaching(s: State, e: Elector, r: nat, tenBound: int) {
    match e.phase
    case AcquireSleep(wake) => 10 * wake <= tenBound
    case Attempting(Acquire, _, _, issued, stage) =>
      var early := 10 * issued + 22 * e.config.retryPeriod <= tenBound;
      10 * issued <= tenBound &&
      (match stage
       case FastWait(w) => w < |s.writes| && !s.writes[w].status.Applied?
       case GetWait(None) => true
       case GetWait(Some(reply)) => reply == Some(r) || early
       case SlowWait(w) =>
         w < |s.writes| &&
         ((s.writes[w].base == Some(r) && s.writes[w].status.InFlight?) || (early && !s.writes[w].status.Applied?))
       case CreateWait(w) => w < |s.writes| && early && !s.writes[w].status.Applied?)
    case _ => false
  }

  predicate OldWrites(s: State, leaver: string, r: nat) {
    forall w :: 0 <= w < |s.writes| ==>
      (s.writes[w].owner == leaver && s.writes[w].status.InFlight? && s.writes[w].base.Some? ==> s.writes[w].base.value < r)
  }

  /** Version `r` is the release; `since` is when it was acknowledged. */
  predicate Handing(s: State, leaver: string, standby: string, r: nat, since: int) {
    && leaver in s.electors && standby in s.electors && leaver != standby
    && s.electors[leaver].config == s.electors[standby].config
    && var c := s.electors[leaver].config;
    && s.electors[leaver].phase == Idle(since + c.leaseDuration + c.retryPeriod)
    && r < |s.lease| && s.lease[r].holder == ""
    && OldWrites(s, leaver, r)
    && (|s.lease| == r + 1 ==> Approaching(s, s.electors[standby], r, 10 * since + 22 * c.retryPeriod))
    && (forall i :: r < i < |s.lease| ==> s.lease[i].holder != leaver)
  }

  lemma HandingServe(s: State, w: nat, leaver: string, standby: string, r: nat, since: int)
    requires Inv(s) && NoWrap(s.lease) && Enabled(s, ServeWrite(w)) && Handing(s, leaver, standby, r, since)
    ensures Handing(DoServeWrite(s, w), leaver, standby, r, since)
  {
    var s', wr := DoServeWrite(s, w), s.writes[w];
    assert WriteInv(s.lease, s.electors, wr);
    assert ElectorInv(s.lease, s.writes, standby, s.electors[standby]);
    forall k | 0 <= k < |s'.writes|
      ensures s'.writes[k].owner == leaver && s'.writes[k].status.InFlight? && s'.writes[k].base.Some? ==>
                s'.writes[k].base.value < r
    {
      assert s.writes[k].owner == s'.writes[k].owner && s.writes[k].base == s'.writes[k].base;
    }
  }

  lemma HandingStandby(s: State, step: Step, leaver: string, standby: string, r: nat, since: int)
    requires Inv(s) && Handing(s, leaver, standby, r, since)
    requires !step.Tick? && !step.ServeWrite? && Enabled(s, step) && step.id == standby
    requires !Interferes(s, step, leaver, standby) && Instant(s.electors[standby].phase, s.now)
    requires |s.lease| == r + 1
    ensures Approaching(Do(s, step), Do(s, step).electors[standby], r, 10 * since + 22 * s.electors[leaver].config.retryPeriod)
  {
    if step.GetReply? {
      HandingGetReply(s, step, leaver, standby, r, since);
    } else {
      assert ElectorInv(s.lease, s.writes, standby, s.electors[standby]);
    }
  }

  lemma HandingGetReply(s: State, step: Step, leaver: string, standby: string, r: nat, since: int)
    requires Inv(s) && Handing(s, leaver, standby, r, since)
    requires step.GetReply? && Enabled(s, step) && step.id == standby
    requires Instant(s.electors[standby].phase, s.now) && |s.lease| == r + 1
    ensures Approaching(Do(s, step), Do(s, step).electors[standby], r, 10 * since + 22 * s.electors[leaver].config.retryPeriod)
  {
    var e := s.electors[standby];
    assert ElectorInv(s.lease, s.writes, standby, e);
    if e.phase.stage.reply.value.Some? {
      ObserveKeepsBelief(s.lease, standby, e, e.phase.stage.reply.value.value, s.now);
    }
  }

  /** What a step of elector `id` can change besides that elector's own state. */
  predicate Frame(s: State, s': State, id: string) {
    && s'.lease == s.lease
    && |s.writes| <= |s'.writes| <= |s.writes| + 1
    && (forall k :: 0 <= k < |s.writes| ==> s'.writes[k] == s.writes[k])
    && (|s'.writes| == |s.writes| + 1 ==> s'.writes[|s.writes|].owner == id)
    && id in s.electors && s'.electors.Keys == s.electors.Keys
    && (forall i :: i in s.electors && i != id ==> s'.electors[i] == s.electors[i])
    && s'.electors[id].config == s.electors[id].config
  }

  lemma StepFrame(s: State, step: Step)
    requires Enabled(s, step) && !step.Tick? && !step.ServeWrite?
    ensures Frame(s, Do(s, step), step.id) && Do(s, step).now == s.now
  {
  }

  lemma HandingFrame(s: State, s': State, id: string, leaver: string, standby: string, r: nat, since: int)
    requires Handing(s, leaver, standby, r, since) && Frame(s, s', id) && id != leaver
    requires id == standby && |s.lease| == r + 1 ==>
               Approaching(s', s'.electors[standby], r, 10 * since + 22 * s.electors[leaver].config.retryPeriod)
    ensures Handing(s', leaver, standby, r, since)
  {
    forall k | 0 <= k < |s'.writes|
      ensures s'.writes[k].owner == leaver && s'.writes[k].status.InFlight? && s'.writes[k].base.Some? ==>
                s'.writes[k].base.value < r
    {
      if k < |s.writes| {
        assert s'.writes[k] == s.writes[k];
      }
    }
  }

  lemma HandingStep(s: State, step: Step, leaver: string, standby: string, r: nat, since: int)
    requires Inv(s) && NoWrap(s.lease) && Handing(s, leaver, standby, r, since) && Enabled(s, step)
    requires !Interferes(s, step, leaver, standby) && Instant(s.electors[standby].phase, s.now)
    ensures Handing(Do(s, step), leaver, standby, r, since)
  {
    if step.ServeWrite? {
      HandingServe(s, step.w, leaver, standby, r, since);
    } else if !step.Tick? {
      assert step.id != leaver;
      StepFrame(s, step);
      if step.id == standby && |s.lease| == r + 1 {
        HandingStandby(s, step, leaver, standby, r, since);
      }
      HandingFrame(s, Do(s, step), step.id, leaver, standby, r, since);
    }
  }

  /** Once the write an elector waits for is applied, nothing else it has in
      flight can be applied any more. */
  predicate OwnWriteIsLast(s: State, id: string)
    requires id in s.electors
  {
    var p := s.electors[id].phase;
    Waits(p) && WaitsOn(p) < |s.writes| && s.writes[WaitsOn(p)].status.Applied? ==>
      forall i :: s.writes[WaitsOn(p)].status.version < i < |s.lease| ==> s.lease[i].holder != id
  }

  lemma OwnWriteIsLastServe(s: State, w: nat, id: string)
    requires Inv(s) && Enabled(s, ServeWrite(w)) && id in s.electors && OwnWriteIsLast(s, id)
    ensures OwnWriteIsLast(DoServeWrite(s, w), id)
  {
    var wr, p := s.writes[w], s.electors[id].phase;
    assert ElectorInv(s.lease, s.writes, id, s.electors[id]) && WriteInv(s.lease, s.electors, wr);
    if Waits(p) {
      assert WriteInv(s.lease, s.electors, s.writes[WaitsOn(p)]);
    }
  }

  lemma OwnWriteIsLastOther(s: State, step: Step, id: string)
    requires Inv(s) && Enabled(s, step) && !step.Tick? && !step.ServeWrite? && id in s.electors && OwnWriteIsLast(s, id)
    ensures id in Do(s, step).electors && OwnWriteIsLast(Do(s, step), id)
  {
    if step.id == id {
      OwnWriteIsLastSelf(s, step);
    } else {
      StepFrame(s, step);
      assert ElectorInv(s.lease, s.writes, id, s.electors[id]);
      hide Do, Enabled, Inv;
      OwnWriteIsLastFrame(s, Do(s, step), step.id, id);
    }
  }

  lemma OwnWriteIsLastSelf(s: State, step: Step)
    requires Enabled(s, step) && !step.Tick? && !step.ServeWrite? && step.id in s.electors && OwnWriteIsLast(s, step.id)
    ensures step.id in Do(s, step).electors && OwnWriteIsLast(Do(s, step), step.id)
  {
    StepFrame(s, step);
  }

  lemma OwnWriteIsLastFrame(s: State, s': State, other: string, id: string)
    requires Frame(s, s', other) && other != id && id in s.electors && OwnWriteIsLast(s, id)
    requires Waits(s.electors[id].phase) ==> WaitsOn(s.electors[id].phase) < |s.writes|
    ensures id in s'.electors && OwnWriteIsLast(s', id)
  {
  }

  lemma OwnWriteIsLastStep(s: State, step: Step, id: string)
    requires Inv(s) && Enabled(s, step) && id in s.electors && OwnWriteIsLast(s, id)
    ensures id in Do(s, step).electors && OwnWriteIsLast(Do(s, step), id)
  {
    if step.ServeWrite? {
      OwnWriteIsLastServe(s, step.w, id);
    } else if !step.Tick? {
      OwnWriteIsLastOther(s, step, id);
    }
  }

  lemma {:induction false} RunOwnWriteIsLast(states: seq<State>, steps: seq<Step>, n: nat, id: string)
    requires Run(states, steps) && Init(states[0]) && n < |states| && NoWrap(states[n].lease)
    requires id in states[n].electors
    ensures OwnWriteIsLast(states[n], id)
  {
    if n > 0 {
      LeaseOnlyGrows(states[n - 1], steps[n - 1]);
      RunInv(states, steps, n - 1);
      assert id in states[n - 1].electors;
      RunOwnWriteIsLast(states, steps, n - 1, id);
      OwnWriteIsLastStep(states[n - 1], steps[n - 1], id);
    }
  }

  /** Step `n` acknowledges the release of a leader that is stepping down,
      while `standby`, configured alike, is in its acquire loop. Requests take
      no time, so the standby is not still waiting for the answer to a write
      that took effect before the release. */
  predicate Vacates(s: State, step: Step, leaver: string, standby: string) {
    && step == WriteAck(leaver) && Enabled(s, step)
    && s.electors[leaver].phase.Releasing? && s.electors[leaver].steppingDown
    && standby in s.electors && standby != leaver
    && s.electors[standby].config == s.electors[leaver].config
    && InAcquireLoop(s.electors[standby].phase)
    && (AwaitsApplied(s, standby) ==> AwaitedVersion(s, standby) > ReleasedVersion(s, leaver))
  }

  /** The write that `id` waits for has taken effect. */
  predicate AwaitsApplied(s: State, id: string)
    requires id in s.electors
  {
    var p := s.electors[id].phase;
    Waits(p) && WaitsOn(p) < |s.writes| && s.writes[WaitsOn(p)].status.Applied?
  }

  function AwaitedVersion(s: State, id: string): nat
    requires id in s.electors && AwaitsApplied(s, id)
  {
    s.writes[WaitsOn(s.electors[id].phase)].status.version
  }

  function ReleasedVersion(s: State, leaver: string): nat
    requires Enabled(s, WriteAck(leaver))
  {
    s.writes[WaitsOn(s.electors[leaver].phase)].status.version
  }

  lemma VacatesStartsHanding(s: State, step: Step, leaver: string, standby: string)
    requires Inv(s) && SleepBounded(s) && Vacates(s, step, leaver, standby)
    requires OwnWriteIsLast(s, leaver)
    ensures Handing(Do(s, step), leaver, standby, ReleasedVersion(s, leaver), s.now)
  {
    var e := s.electors[leaver];
    var wr := s.writes[WaitsOn(e.phase)];
    assert ElectorInv(s.lease, s.writes, leaver, e) && WriteInv(s.lease, s.electors, wr);
    WritesNotAhead(s, leaver);
    var f := s.electors[standby];
    assert ElectorInv(s.lease, s.writes, standby, f) && Bounded(f, s.now);
    if Waits(f.phase) {
      assert WriteInv(s.lease, s.electors, s.writes[WaitsOn(f.phase)]);
    }
  }

  lemma {:induction false} HandingSegment(
    states: seq<State>, steps: seq<Step>, from: nat, to: nat, leaver: string, standby: string)
    requires Run(states, steps) && Init(states[0]) && from < to < |states| && NoWrap(states[to].lease)
    requires Vacates(states[from], steps[from], leaver, standby)
    requires forall i :: from < i < to ==> !Interferes(states[i], steps[i], leaver, standby)
    requires forall i :: from < i < to && standby in states[i].electors ==> Instant(states[i].electors[standby].phase, states[i].now)
    ensures Handing(states[to], leaver, standby, ReleasedVersion(states[from], leaver), states[from].now)
  {
    hide Inv, Init;
    LeaseOnlyGrows(states[to - 1], steps[to - 1]);
    RunInv(states, steps, to - 1);
    if to == from + 1 {
      RunSleepBounded(states, steps, from);
      RunOwnWriteIsLast(states, steps, from, leaver);
      VacatesStartsHanding(states[from], steps[from], leaver, standby);
    } else {
      HandingSegment(states, steps, from, to - 1, leaver, standby);
      HandingStep(states[to - 1], steps[to - 1], leaver, standby, ReleasedVersion(states[from], leaver), states[from].now);
    }
  }

  /** Hand-off. A leader steps down, its release succeeds, and some equally
      configured standby is in its acquire loop. If the standby's requests are
      instantaneous, then by the time the stepping-down instance may contend
      again the Lease has passed to another identity: the version right after
      the release names somebody else with the next transition count, no later
      version names the stepping-down instance, and the count it will read
      exceeds the one it released with. */
  lemma StepDownHandsOver(
    states: seq<State>, steps: seq<Step>, from: nat, to: nat, leaver: string, standby: string)
    requires Run(states, steps) && Init(states[0]) && from < to < |steps| && NoWrap(states[to].lease)
    requires Vacates(states[from], steps[from], leaver, standby)
    requires states[from].electors[leaver].config.Validate().None?
    requires forall i :: from < i < to ==> !Interferes(states[i], steps[i], leaver, standby)
    requires forall i :: from < i <= to && standby in states[i].electors ==> Instant(states[i].electors[standby].phase, states[i].now)
    requires steps[to] == StartTerm(leaver)
    ensures var r, lease := ReleasedVersion(states[from], leaver), states[to].lease;
            && r + 1 < |lease|
            && lease[r].holder == ""
            && lease[r + 1].holder !in {"", leaver} && lease[r + 1].transitions == lease[r].transitions + 1
            && lease[|lease| - 1].holder != leaver && lease[|lease| - 1].transitions > lease[r].transitions
  {
    var r, lease := ReleasedVersion(states[from], leaver), states[to].lease;
    HandingSegment(states, steps, from, to, leaver, standby);
    RunInv(states, steps, to);
    ConfigKept(states, steps, from, to, leaver);
    RetryBeforeRecontending(states[to].electors[leaver].config);
    assert Linked(lease[r], lease[r + 1]);
    ChainOrdersHolders(lease, r + 1, |lease| - 1);
  }

  /** Between two terms an elector pauses for its retry period, and after a
      step-down for its lease and its retry period, unless it restarts. */
  lemma TermEndsWithPause(s: State, step: Step, id: string)
    requires Enabled(s, step) && id in s.electors && !s.electors[id].phase.Idle? && step != Restart(id)
    requires Do(s, step).electors[id].phase.Idle?
    ensures var e := s.electors[id];
            Do(s, step).electors[id].phase.until ==
            s.now + e.config.retryPeriod + if e.steppingDown then e.config.leaseDuration else 0
  {
  }

  /** The pause after a step-down is longer than the longest jittered retry. */
  lemma RetryBeforeRecontending(c: Config)
    requires c.Validate().None?
    ensures forall nap: nat :: Jittered(c.retryPeriod, nap) ==> nap < c.leaseDuration + c.retryPeriod
    ensures 22 * c.retryPeriod < 10 * (c.leaseDuration + c.retryPeriod)
  {
  }

  lemma StepKeepsConfig(s: State, step: Step, id: string)
    requires Enabled(s, step) && id in s.electors
    ensures id in Do(s, step).electors && Do(s, step).electors[id].config == s.electors[id].config
  {
    if !step.Tick? && !step.ServeWrite? {
      StepFrame(s, step);
    }
  }

  lemma {:induction false} ConfigKept(states: seq<State>, steps: seq<Step>, from: nat, to: nat, id: string)
    requires Run(states, steps) && from <= to < |states| && id in states[from].electors
    ensures id in states[to].electors && states[to].electors[id].config == states[from].electors[id].config
  {
    hide Do, Enabled;
    if from < to {
      ConfigKept(states, steps, from, to - 1, id);
      StepKeepsConfig(states[to - 1], steps[to - 1], id);
    }
  }
}
