/** One attempt and one release of an elector, with nobody else around: what they
    do as functions, and that this is what the steps of the protocol do. */
module LeaseAttempt {
  import opened Wrappers
  import opened LeaseRecord
  import opened LeaseElection
  import opened LeaseFencing

  /** What happens to a request on the way. */
  datatype Fault = Fine | Dropped | Unacknowledged

  /** The elector and the Lease afterwards, and whether it succeeded. */
  datatype Effect = Effect(e: Elector, lease: seq<Record>, ok: bool)

  predicate IsCurrent(cached: Option<nat>, lease: seq<Record>) {
    cached == if lease == [] then None else Some(|lease| - 1)
  }

  function Served(lease: seq<Record>, base: Option<nat>, record: Record, fault: Fault): seq<Record> {
    if IsCurrent(base, lease) && !fault.Dropped? then lease + [Stored(record)] else lease
  }

  /** A write, observed only if it is applied and acknowledged. */
  function Written(e: Elector, lease: seq<Record>, base: Option<nat>, record: Record, fault: Fault, now: int): Effect {
    if IsCurrent(base, lease) && fault.Fine? then
      Effect(SetObserved(e.(cached := Some(|lease|)), record, now), lease + [Stored(record)], true)
    else
      Effect(e, Served(lease, base, record, fault), false)
  }

  /** Read, decide, write. */
  function SlowEffect(id: string, e: Elector, lease: seq<Record>, record: Record, now: int, read: Fault, write: Fault): Effect {
    if !read.Fine? then Effect(e, lease, false)
    else if lease == [] then Written(e, lease, None, record, write, now)
    else
      var v := |lease| - 1;
      var seen := Observe(e, v, lease[v], now);
      if HeldByOther(id, seen, lease[v], now) then Effect(seen, lease, false)
      else Written(seen, lease, Some(v), SlowRecord(id, seen, record, lease[v]), write, now)
  }

  predicate TakesFastPath(id: string, e: Elector, now: int) {
    IsLeader(id, e) && IsLeaseValid(e, now)
  }

  /** A whole attempt: the optimistic renewal first, if it applies. */
  function AttemptEffect(id: string, e: Elector, lease: seq<Record>, now: int, fast: Fault, read: Fault, write: Fault): Effect {
    var own := OwnRecord(id, e, now);
    if !TakesFastPath(id, e, now) then SlowEffect(id, e, lease, own, now, read, write)
    else
      var record := Renewal(own, e.observed);
      var first := if e.cached.Some? then Written(e, lease, e.cached, record, fast, now) else Effect(e, lease, false);
      if first.ok then first else SlowEffect(id, first.e, first.lease, record, now, read, write)
  }

  function ReleaseEffect(id: string, e: Elector, lease: seq<Record>, now: int, fault: Fault): Effect {
    if !IsLeader(id, e) then Effect(e, lease, true)
    else if e.cached.None? then Effect(e, lease, false)
    else Written(e, lease, e.cached, ReleaseRecord(e, now), fault, now)
  }

  // ----- what an attempt writes -----

  /** Version `i` of `lease` is written by an attempt of `e` at `now`. It carries
      the elector's duration and the time of the attempt. It keeps the time of
      acquisition of a version of the same holder before it; after anything else
      it is stamped with the attempt, or with what the elector last observed if
      the attempt began with an optimistic renewal. */
  predicate WrittenBy(lease: seq<Record>, i: nat, id: string, e: Elector, now: int)
    requires i < |lease|
  {
    var r := lease[i];
    && r.holder == id && r.renewTime == Some(now + e.skew)
    && r.durationSeconds == ToI32(e.config.LeaseSeconds())
    && (if i > 0 && lease[i - 1].holder == id then
          r.acquireTime == lease[i - 1].acquireTime && r.transitions == lease[i - 1].transitions
        else
          && r.acquireTime == (if TakesFastPath(id, e, now) then e.observed.acquireTime else Some(now + e.skew))
          && r.transitions == (if i == 0 then 0 else lease[i - 1].transitions + 1))
  }

  predicate Sound(lease: seq<Record>, id: string, e: Elector) {
    && Chain(lease) && NoWrap(lease) && (forall i :: 0 <= i < |lease| ==> FitsI32(lease[i].transitions))
    && id != "" && BeliefInv(lease, id, e) && !e.phase.Idle?
  }

  /** An attempt appends at most records of its own; on success the newest version
      is the record it now observes, since now. */
  predicate AttemptLaw(id: string, e: Elector, lease: seq<Record>, now: int, eff: Effect) {
    && lease <= eff.lease
    && (forall i :: |lease| <= i < |eff.lease| ==> WrittenBy(eff.lease, i, id, e, now))
    && (eff.ok ==>
          && |eff.lease| > |lease| && eff.e.cached == Some(|eff.lease| - 1)
          && Stored(eff.e.observed) == eff.lease[|eff.lease| - 1] && eff.e.observedTime == now)
  }

  lemma SlowLaw(id: string, e0: Elector, e: Elector, lease: seq<Record>, record: Record, now: int, read: Fault, write: Fault)
    requires Sound(lease, id, e) && e0.skew == e.skew && e0.config == e.config
    requires record.holder == id && record.renewTime == Some(now + e.skew) && record.durationSeconds == e.config.LeaseSeconds()
    requires record.acquireTime == if TakesFastPath(id, e0, now) then e0.observed.acquireTime else Some(now + e.skew)
    requires lease == [] ==> record.transitions == 0
    ensures AttemptLaw(id, e0, lease, now, SlowEffect(id, e, lease, record, now, read, write))
  {
    if read.Fine? && lease != [] {
      var v := |lease| - 1;
      ObserveKeepsBelief(lease, id, e, v, now);
      var seen := Observe(e, v, lease[v], now);
      WriteLaw(id, e0, seen, lease, Some(v), SlowRecord(id, seen, record, lease[v]), now, write);
    } else if read.Fine? {
      WriteLaw(id, e0, e, lease, None, record, now, write);
    }
  }

  /** A write on the newest version of a record that fits there. */
  lemma WriteLaw(id: string, e0: Elector, e: Elector, lease: seq<Record>, base: Option<nat>, record: Record, now: int, fault: Fault)
    requires IsCurrent(base, lease) && WrittenBy(lease + [Stored(record)], |lease|, id, e0, now)
    ensures AttemptLaw(id, e0, lease, now, Written(e, lease, base, record, fault, now))
  {
    hide WrittenBy;
  }

  lemma FastLaw(id: string, e: Elector, lease: seq<Record>, now: int, fast: Fault)
    requires Sound(lease, id, e) && TakesFastPath(id, e, now)
    ensures e.cached.Some?
    ensures var first := Written(e, lease, e.cached, Renewal(OwnRecord(id, e, now), e.observed), fast, now);
            && AttemptLaw(id, e, lease, now, first) && first.lease != []
            && (!first.ok ==> first.e == e)
            && (|first.lease| > |lease| ==>
                  && |first.lease| == |lease| + 1
                  && lease != [] && lease[|lease| - 1].holder == id && Linked(lease[|lease| - 1], first.lease[|lease|]))
  {
  }

  lemma SoundAfterFast(id: string, e: Elector, lease: seq<Record>, longer: seq<Record>)
    requires Sound(lease, id, e) && lease != [] && |longer| == |lease| + 1 && lease <= longer
    requires Linked(lease[|lease| - 1], longer[|lease|]) && lease[|lease| - 1].holder == id == longer[|lease|].holder
    ensures Sound(longer, id, e)
  {
    assert longer == lease + [longer[|lease|]];
    ExtendChain(lease, longer[|lease|]);
    ExtendBelief(lease, longer[|lease|], id, e);
  }

  /** The law of an attempt, whatever is lost on the way. */
  lemma AttemptWrites(id: string, e: Elector, lease: seq<Record>, now: int, fast: Fault, read: Fault, write: Fault)
    requires Sound(lease, id, e)
    ensures AttemptLaw(id, e, lease, now, AttemptEffect(id, e, lease, now, fast, read, write))
  {
    hide Sound, SlowEffect;
    var own := OwnRecord(id, e, now);
    if TakesFastPath(id, e, now) {
      FastLaw(id, e, lease, now, fast);
      var record := Renewal(own, e.observed);
      var first := Written(e, lease, e.cached, record, fast, now);
      if !first.ok {
        if |first.lease| > |lease| {
          SoundAfterFast(id, e, lease, first.lease);
        }
        SlowLaw(id, e, e, first.lease, record, now, read, write);
        Compose(id, e, lease, now, first, SlowEffect(id, e, first.lease, record, now, read, write));
      }
    } else {
      SlowLaw(id, e, e, lease, own, now, read, write);
    }
  }

  /** Without faults an attempt fails only against an unexpired Lease of somebody
      else, which it leaves alone; and success means it believes to hold the Lease. */
  lemma AttemptOutcome(id: string, e: Elector, lease: seq<Record>, now: int, fast: Fault, read: Fault, write: Fault)
    requires Sound(lease, id, e)
    ensures var eff := AttemptEffect(id, e, lease, now, fast, read, write);
            && (eff.ok ==> IsLeader(id, eff.e))
            && (!eff.ok && fast.Fine? && read.Fine? && write.Fine? ==>
                  lease != [] && eff.lease == lease && HeldByOther(id, eff.e, lease[|lease| - 1], now))
  {
    hide Chain, BeliefInv, NoWrap;
  }

  lemma Compose(id: string, e: Elector, lease: seq<Record>, now: int, first: Effect, second: Effect)
    requires AttemptLaw(id, e, lease, now, first) && AttemptLaw(id, e, first.lease, now, second)
    ensures AttemptLaw(id, e, lease, now, second)
  {
    forall i | |lease| <= i < |second.lease|
      ensures WrittenBy(second.lease, i, id, e, now)
    {
      if i < |first.lease| {
        assert WrittenBy(first.lease, i, id, e, now);
        assert second.lease[i] == first.lease[i] && (i > 0 ==> second.lease[i - 1] == first.lease[i - 1]);
      }
    }
  }

  /** A release writes at most one record: vacant, for one second, stamped with
      the release, with the count of the holder's last version, which it follows. */
  lemma ReleaseWrites(id: string, e: Elector, lease: seq<Record>, now: int, fault: Fault)
    requires Sound(lease, id, e)
    ensures var eff := ReleaseEffect(id, e, lease, now, fault);
            || eff.lease == lease
            || (&& IsLeader(id, e) && lease != [] && lease[|lease| - 1].holder == id
                && eff.lease == lease + [Record("", 1, Some(now + e.skew), Some(now + e.skew), lease[|lease| - 1].transitions)])
    ensures var eff := ReleaseEffect(id, e, lease, now, fault);
            eff.ok ==> !IsLeader(id, eff.e) && (IsLeader(id, e) ==> |eff.lease| == |lease| + 1)
  {
    if IsLeader(id, e) {
      WireRoundTrip(ReleaseRecord(e, now));
    }
  }

  /** An attempt without faults takes the Lease over, but does not stamp it. */
  predicate KeepsStaleTime(id: string, e: Elector, lease: seq<Record>, now: int) {
    var eff := AttemptEffect(id, e, lease, now, Fine, Fine, Fine);
    && eff.ok && lease != [] && |eff.lease| == |lease| + 1
    && eff.lease[|lease|].transitions == lease[|lease| - 1].transitions + 1
    && eff.lease[|lease|].acquireTime != eff.lease[|lease|].renewTime
  }

  /** The stamp of an earlier tenure can survive: an elector that still believes to
      hold the Lease, but was overtaken by somebody who released it since, takes it
      over with the time at which it first acquired it. */
  lemma StaleTimeOfAcquisition()
    ensures exists id, e, lease, now :: Sound(lease, id, e) && KeepsStaleTime(id, e, lease, now)
  {
    var c := Config(15 * NANOS_PER_SECOND, 10 * NANOS_PER_SECOND, 2 * NANOS_PER_SECOND);
    var mine := Record("a", 15, Some(0), Some(0), 0);
    var lease := [mine, Record("b", 15, Some(1), Some(1), 1), Record("", 1, Some(2), Some(2), 1)];
    var e := Elector(c, 0, Some(0), mine, None, 0, false, RenewOver);
    assert Linked(lease[0], lease[1]) && Linked(lease[1], lease[2]);
    assert Sound(lease, "a", e);
    var eff := AttemptEffect("a", e, lease, 3, Fine, Fine, Fine);
    assert c.LeaseSeconds() == 15;
    assert TakesFastPath("a", e, 3) && !IsCurrent(e.cached, lease);
    assert eff.lease == lease + [Stored(Record("a", 15, Some(0), Some(3), 2))];
    assert KeepsStaleTime("a", e, lease, 3);
  }

  // ----- the same as steps of the protocol -----

  ghost predicate Leads(s: State, s': State) {
    exists states, steps :: Run(states, steps) && states[0] == s && states[|steps|] == s'
  }

  lemma LeadsNowhere(s: State)
    ensures Leads(s, s)
  {
    var steps: seq<Step> := [];
    assert Run([s], steps) && [s][0] == s && [s][|steps|] == s;
  }

  lemma LeadsOn(s0: State, s: State, step: Step)
    requires Leads(s0, s) && Enabled(s, step)
    ensures Leads(s0, Do(s, step))
  {
    hide Do, Enabled;
    var states: seq<State>, steps: seq<Step> :| Run(states, steps) && states[0] == s0 && states[|steps|] == s;
    var longer, more := states + [Do(s, step)], steps + [step];
    assert Run(longer, more) && longer[0] == s0 && longer[|more|] == Do(s, step);
  }

  /** `id` waits for a write it just issued. */
  predicate Waiting(s: State, id: string, w: nat) {
    && id in s.electors && Waits(s.electors[id].phase) && WaitsOn(s.electors[id].phase) == w < |s.writes|
    && s.writes[w].status.InFlight? && s.writes[w].owner == id
    && (s.writes[w].base.Some? ==> s.writes[w].base.value < |s.lease|)
  }

  /** The elector `id` after its write met `fault`. */
  function Answered(s: State, id: string, w: nat, fault: Fault): Elector
    requires Waiting(s, id, w)
  {
    var e, wr := s.electors[id], s.writes[w];
    var eff := Written(e, s.lease, wr.base, wr.record, fault, s.now);
    match e.phase
    case Releasing(_) => EndTerm(s, id, eff.e).electors[id]
    case Attempting(loop, _, _, _, stage) =>
      if eff.ok then AttemptSucceeded(s, id, eff.e, loop).electors[id]
      else if stage.FastWait? then e.(phase := e.phase.(issued := s.now, stage := GetWait(None)))
      else AttemptFailed(s, id, e, loop, e.config.retryPeriod).electors[id]
  }

  /** Serving and answering a write, or losing it, has the effect `Written`. */
  lemma WriteSteps(s0: State, s: State, id: string, w: nat, fault: Fault) returns (s': State)
    requires Leads(s0, s) && Waiting(s, id, w)
    ensures Leads(s0, s') && s'.now == s.now
    ensures s'.lease == Served(s.lease, s.writes[w].base, s.writes[w].record, fault)
    ensures s'.electors == s.electors[id := Answered(s, id, w, fault)]
  {
    hide Leads;
    var nap := s.electors[id].config.retryPeriod;
    s' := s;
    if !fault.Dropped? {
      LeadsOn(s0, s, ServeWrite(w));
      s' := DoServeWrite(s, w);
    }
    if fault.Fine? && IsCurrent(s.writes[w].base, s.lease) {
      LeadsOn(s0, s', WriteAck(id));
      s' := DoWriteAck(s', id);
    } else {
      LeadsOn(s0, s', WriteFail(id, nap));
      s' := DoWriteFail(s', id, nap);
    }
  }

  /** `id` has sent its read. */
  predicate Reading(s: State, id: string) {
    && id in s.electors && s.electors[id].phase.Attempting? && s.electors[id].phase.stage == GetWait(None)
    && (s.electors[id].cached.Some? ==> s.electors[id].cached.value < |s.lease|)
  }

  /** Where an attempt of loop `loop` leaves its elector. */
  function Ended(s: State, id: string, eff: Effect, loop: Loop): Elector {
    if eff.ok then AttemptSucceeded(s, id, eff.e, loop).electors[id]
    else AttemptFailed(s, id, eff.e, loop, eff.e.config.retryPeriod).electors[id]
  }

  lemma ReadSteps(s0: State, s: State, id: string) returns (s': State)
    requires Leads(s0, s) && Reading(s, id)
    ensures Leads(s0, s')
    ensures s' == SetElector(s, id, s.electors[id].(phase := s.electors[id].phase.(
                               stage := GetWait(Some(if s.lease == [] then None else Some(|s.lease| - 1))))))
  {
    hide Leads;
    LeadsOn(s0, s, ServeGet(id));
    s' := Do(s, ServeGet(id));
  }

  /** Issuing the last write of an attempt and having it answered. */
  lemma IssueSteps(s0: State, s: State, s1: State, id: string, base: Option<nat>, record: Record, fault: Fault) returns (s': State)
    requires Leads(s0, s1) && id in s1.electors && id in s.electors && (base.Some? ==> base.value < |s.lease|)
    requires s1 == SetElector(Issue(s, id, base, record), id, s1.electors[id])
    requires var p := s1.electors[id].phase;
             p.Attempting? && (p.stage == CreateWait(|s.writes|) || p.stage == SlowWait(|s.writes|))
    ensures var eff := Written(s1.electors[id], s.lease, base, record, fault, s.now);
            && Leads(s0, s') && s'.now == s.now && s'.lease == eff.lease
            && s'.electors == s.electors[id := Ended(s, id, eff, s1.electors[id].phase.loop)]
  {
    hide Leads;
    s' := WriteSteps(s0, s1, id, |s.writes|, fault);
  }

  /** The state in which `id` has its read answered. */
  function Read(s: State, id: string): State
    requires Reading(s, id)
  {
    SetElector(s, id, s.electors[id].(phase := s.electors[id].phase.(
                        stage := GetWait(Some(if s.lease == [] then None else Some(|s.lease| - 1))))))
  }

  /** The reply leads to the create or the write that `SlowEffect` prescribes. */
  lemma ReplyCreates(s: State, id: string, nap: nat)
    requires Reading(s, id) && s.lease == [] && Enabled(Read(s, id), GetReply(id, nap))
    ensures var e, p := s.electors[id], s.electors[id].phase;
            DoGetReply(Read(s, id), id, nap) ==
            SetElector(Issue(s, id, None, p.record), id, e.(phase := p.(issued := s.now, stage := CreateWait(|s.writes|))))
  {
  }

  lemma ReplyDecides(s: State, id: string, nap: nat)
    requires Reading(s, id) && s.lease != [] && Enabled(Read(s, id), GetReply(id, nap))
    ensures var e, p, v := s.electors[id], s.electors[id].phase, |s.lease| - 1;
            var seen := Observe(e, v, s.lease[v], s.now);
            var record := SlowRecord(id, seen, p.record, s.lease[v]);
            DoGetReply(Read(s, id), id, nap) ==
            if HeldByOther(id, seen, s.lease[v], s.now) then AttemptFailed(s, id, seen, p.loop, nap)
            else SetElector(Issue(s, id, Some(v), record), id,
                            seen.(phase := p.(record := record, issued := s.now, stage := SlowWait(|s.writes|))))
  {
    var e, v := s.electors[id], |s.lease| - 1;
    var before := Read(s, id).electors[id];
    assert Observe(before, v, s.lease[v], s.now) == Observe(e, v, s.lease[v], s.now).(phase := before.phase);
  }

  lemma SlowSteps(s0: State, s: State, id: string, read: Fault, write: Fault) returns (s': State)
    requires Leads(s0, s) && Reading(s, id)
    ensures var p := s.electors[id].phase;
            var eff := SlowEffect(id, s.electors[id], s.lease, p.record, s.now, read, write);
            && Leads(s0, s') && s'.now == s.now && s'.lease == eff.lease
            && s'.electors == s.electors[id := Ended(s, id, eff, p.loop)]
  {
    hide Leads;
    if !read.Fine? {
      var nap := s.electors[id].config.retryPeriod;
      LeadsOn(s0, s, GetFail(id, nap));
      s' := Do(s, GetFail(id, nap));
    } else if s.lease == [] {
      s' := CreateSteps(s0, s, id, write);
    } else {
      s' := DecideSteps(s0, s, id, write);
    }
  }

  lemma CreateSteps(s0: State, s: State, id: string, write: Fault) returns (s': State)
    requires Leads(s0, s) && Reading(s, id) && s.lease == []
    ensures var p := s.electors[id].phase;
            var eff := Written(s.electors[id], s.lease, None, p.record, write, s.now);
            && Leads(s0, s') && s'.now == s.now && s'.lease == eff.lease
            && s'.electors == s.electors[id := Ended(s, id, eff, p.loop)]
  {
    hide Leads;
    var nap := s.electors[id].config.retryPeriod;
    s' := ReadSteps(s0, s, id);
    LeadsOn(s0, s', GetReply(id, nap));
    ReplyCreates(s, id, nap);
    s' := IssueSteps(s0, s, DoGetReply(s', id, nap), id, None, s.electors[id].phase.record, write);
  }

  lemma DecideSteps(s0: State, s: State, id: string, write: Fault) returns (s': State)
    requires Leads(s0, s) && Reading(s, id) && s.lease != []
    ensures var p := s.electors[id].phase;
            var eff := SlowEffect(id, s.electors[id], s.lease, p.record, s.now, Fine, write);
            && Leads(s0, s') && s'.now == s.now && s'.lease == eff.lease
            && s'.electors == s.electors[id := Ended(s, id, eff, p.loop)]
  {
    hide Leads;
    var e, p, v := s.electors[id], s.electors[id].phase, |s.lease| - 1;
    var nap := e.config.retryPeriod;
    s' := ReadSteps(s0, s, id);
    LeadsOn(s0, s', GetReply(id, nap));
    ReplyDecides(s, id, nap);
    s' := DoGetReply(s', id, nap);
    var seen := Observe(e, v, s.lease[v], s.now);
    if !HeldByOther(id, seen, s.lease[v], s.now) {
      s' := IssueSteps(s0, s, s', id, Some(v), SlowRecord(id, seen, p.record, s.lease[v]), write);
    }
  }

  /** A whole attempt: from the state in which it begins, steps of this elector and
      of the server lead to the Lease and to the elector that `AttemptEffect` gives. */
  lemma AttemptIsSteps(s: State, id: string, loop: Loop, fast: Fault, read: Fault, write: Fault) returns (s': State)
    requires id in s.electors && (s.electors[id].cached.Some? ==> s.electors[id].cached.value < |s.lease|)
    ensures var eff := AttemptEffect(id, s.electors[id], s.lease, s.now, fast, read, write);
            && Leads(BeginAttempt(s, id, s.electors[id], loop), s') && s'.now == s.now && s'.lease == eff.lease
            && s'.electors == s.electors[id := Ended(s, id, eff, loop)]
  {
    hide Leads, SlowEffect, BeginAttempt;
    if TakesFastPath(id, s.electors[id], s.now) && s.electors[id].cached.Some? {
      s' := FastSteps(s, id, loop, fast, read, write);
    } else {
      s' := PlainSteps(s, id, loop, read, write);
    }
  }

  /** The record an attempt takes into its slow path. */
  function CarriedRecord(id: string, e: Elector, now: int): Record {
    if TakesFastPath(id, e, now) then Renewal(OwnRecord(id, e, now), e.observed) else OwnRecord(id, e, now)
  }

  lemma BeginsReading(s: State, id: string, loop: Loop)
    requires id in s.electors && (s.electors[id].cached.Some? ==> s.electors[id].cached.value < |s.lease|)
    requires !TakesFastPath(id, s.electors[id], s.now) || s.electors[id].cached.None?
    ensures var e := s.electors[id];
            BeginAttempt(s, id, e, loop) ==
            SetElector(s, id, e.(phase := Attempting(loop, CarriedRecord(id, e, s.now), s.now, s.now, GetWait(None))))
  {
  }

  lemma PlainSteps(s: State, id: string, loop: Loop, read: Fault, write: Fault) returns (s': State)
    requires id in s.electors && (s.electors[id].cached.Some? ==> s.electors[id].cached.value < |s.lease|)
    requires !TakesFastPath(id, s.electors[id], s.now) || s.electors[id].cached.None?
    ensures var e := s.electors[id];
            var eff := SlowEffect(id, e, s.lease, CarriedRecord(id, e, s.now), s.now, read, write);
            && Leads(BeginAttempt(s, id, e, loop), s') && s'.now == s.now && s'.lease == eff.lease
            && s'.electors == s.electors[id := Ended(s, id, eff, loop)]
  {
    hide Leads, SlowEffect, BeginAttempt, CarriedRecord;
    var s0 := BeginAttempt(s, id, s.electors[id], loop);
    BeginsReading(s, id, loop);
    LeadsNowhere(s0);
    s' := SlowFrom(s0, s, s0, id, loop, CarriedRecord(id, s.electors[id], s.now), read, write);
  }

  /** The slow path of an attempt whose elector is that of `s` apart from its phase. */
  lemma SlowFrom(s0: State, s: State, s1: State, id: string, loop: Loop, record: Record, read: Fault, write: Fault) returns (s': State)
    requires Leads(s0, s1) && Reading(s1, id) && id in s.electors && s1.now == s.now
    requires s1.electors == s.electors[id := s1.electors[id]] && s1.electors[id] == s.electors[id].(phase := s1.electors[id].phase)
    requires s1.electors[id].phase.loop == loop && s1.electors[id].phase.record == record
    ensures var eff := SlowEffect(id, s.electors[id], s1.lease, record, s.now, read, write);
            && Leads(s0, s') && s'.now == s.now && s'.lease == eff.lease
            && s'.electors == s.electors[id := Ended(s, id, eff, loop)]
  {
    hide Leads, SlowEffect;
    SlowPhase(id, s.electors[id], s1.electors[id], s1.lease, record, s.now, read, write);
    s' := SlowSteps(s0, s1, id, read, write);
  }

  lemma FastSteps(s: State, id: string, loop: Loop, fast: Fault, read: Fault, write: Fault) returns (s': State)
    requires id in s.electors && s.electors[id].cached.Some? && s.electors[id].cached.value < |s.lease|
    requires TakesFastPath(id, s.electors[id], s.now)
    ensures var eff := AttemptEffect(id, s.electors[id], s.lease, s.now, fast, read, write);
            && Leads(BeginAttempt(s, id, s.electors[id], loop), s') && s'.now == s.now && s'.lease == eff.lease
            && s'.electors == s.electors[id := Ended(s, id, eff, loop)]
  {
    hide Leads, SlowEffect;
    var e := s.electors[id];
    var s0, record := BeginAttempt(s, id, e, loop), Renewal(OwnRecord(id, e, s.now), e.observed);
    LeadsNowhere(s0);
    s' := WriteSteps(s0, s0, id, |s.writes|, fast);
    if !Written(e, s.lease, e.cached, record, fast, s.now).ok {
      s' := SlowFrom(s0, s, s', id, loop, record, read, write);
    }
  }

  /** What an attempt does, apart from its phase, does not depend on its phase. */
  lemma SlowPhase(id: string, e: Elector, e': Elector, lease: seq<Record>, record: Record, now: int, read: Fault, write: Fault)
    requires e' == e.(phase := e'.phase)
    ensures var eff, eff' := SlowEffect(id, e, lease, record, now, read, write), SlowEffect(id, e', lease, record, now, read, write);
            eff' == eff.(e := eff.e.(phase := e'.phase))
  {
  }

  /** A release: its steps lead to the Lease and the elector of `ReleaseEffect`. */
  lemma ReleaseIsSteps(s: State, id: string, fault: Fault) returns (s': State)
    requires id in s.electors && s.electors[id].phase.RenewOver?
    requires s.electors[id].cached.Some? ==> s.electors[id].cached.value < |s.lease|
    ensures var eff := ReleaseEffect(id, s.electors[id], s.lease, s.now, fault);
            && Leads(s, s') && s'.now == s.now && s'.lease == eff.lease
            && s'.electors == s.electors[id := EndTerm(s, id, eff.e).electors[id]]
  {
    hide Leads;
    LeadsNowhere(s);
    LeadsOn(s, s, Release(id));
    s' := DoRelease(s, id);
    if IsLeader(id, s.electors[id]) && s.electors[id].cached.Some? {
      s' := WriteSteps(s, s', id, |s.writes|, fault);
    }
  }
}
