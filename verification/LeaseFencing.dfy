/** Safety of the election in every interleaving: the transition counter is a
    fencing token, and no elector acts on a Lease version it has not seen. */
module LeaseFencing {
  import opened Wrappers
  import opened LeaseRecord
  import opened LeaseElection

  // ----- the history of Lease versions -----

  /** The only ways one stored record can follow another: the holder renews,
      keeping the time it acquired the Lease, or releases, and the counter stays;
      or somebody else takes the Lease and the counter goes up by one. */
  predicate Linked(a: Record, b: Record) {
    || (b.transitions == a.transitions && a.holder != "" &&
        (b.holder == "" || (b.holder == a.holder && b.acquireTime == a.acquireTime)))
    || (b.transitions == a.transitions + 1 && b.holder != "" && b.holder != a.holder)
  }

  predicate Chain(lease: seq<Record>) {
    forall i :: 0 <= i < |lease| - 1 ==> Linked(lease[i], lease[i + 1])
  }

  /** No version sits at the largest 32-bit count, where one more hand-over
      would wrap the stored counter around. */
  predicate NoWrap(lease: seq<Record>) {
    forall i :: 0 <= i < |lease| ==> lease[i].transitions < I32_MAX
  }

  lemma {:induction false} ChainOrdersHolders(lease: seq<Record>, i: nat, j: nat)
    requires Chain(lease) && i <= j < |lease|
    ensures lease[i].transitions <= lease[j].transitions
    ensures lease[j].holder != "" && lease[j].holder != lease[i].holder ==>
              lease[i].transitions < lease[j].transitions
    ensures lease[j].holder != "" && lease[j].transitions == lease[i].transitions ==>
              lease[j].holder == lease[i].holder && lease[j].acquireTime == lease[i].acquireTime
    decreases j - i
  {
    if i < j {
      ChainOrdersHolders(lease, i, j - 1);
      assert Linked(lease[j - 1], lease[j - 1 + 1]);
    }
  }

  // ----- the invariant -----

  predicate Follows(prior: Record, owner: string, record: Record) {
    || (record.holder == "" && prior.holder == owner && record.transitions == prior.transitions)
    || (record.holder == owner && prior.holder == owner && record.transitions == prior.transitions
        && record.acquireTime == prior.acquireTime)
    || (record.holder == owner && prior.holder != owner && record.transitions == prior.transitions + 1)
  }

  predicate WriteInv(lease: seq<Record>, electors: map<string, Elector>, wr: Write) {
    && wr.owner in electors
    && (wr.base.Some? ==> wr.base.value < |lease| && Follows(lease[wr.base.value], wr.owner, wr.record))
    && (wr.base.None? ==> FitsI32(wr.record.transitions) && wr.record.holder == wr.owner)
    && (wr.status.Applied? ==>
          && wr.status.version < |lease|
          && lease[wr.status.version] == Stored(wr.record)
          && wr.status.version == (if wr.base.Some? then wr.base.value + 1 else 0))
    && (wr.base.Some? && wr.status.InFlight? ==> NotAhead(electors[wr.owner], wr.base.value))
  }

  /** Version `b` is not newer than what `e` has cached or is about to cache. */
  predicate NotAhead(e: Elector, b: nat) {
    && (e.cached.Some? ==> b <= e.cached.value)
    && (e.phase.Attempting? ==>
          match e.phase.stage
          case GetWait(Some(Some(v))) => b <= v
          case GetWait(Some(None)) => false
          case CreateWait(_) => false
          case _ => true)
  }

  predicate SeenUpTo(lease: seq<Record>, r: Record, c: nat)
    requires c < |lease|
  {
    exists i :: 0 <= i <= c && lease[i] == r
  }

  /** What an elector believes agrees with the object it has cached. */
  predicate BeliefInv(lease: seq<Record>, id: string, e: Elector) {
    && (e.cached.Some? ==> e.cached.value < |lease|)
    && (IsLeader(id, e) ==>
          && e.cached.Some?
          && lease[e.cached.value].holder == id
          && lease[e.cached.value].transitions == e.observed.transitions
          && lease[e.cached.value].acquireTime == e.observed.acquireTime)
    && (e.raw.Some? ==> e.cached.Some? && SeenUpTo(lease, e.raw.value, e.cached.value))
    && (!e.phase.Idle? && !IsLeader(id, e) && e.raw.Some? ==> e.raw.value == e.observed)
  }

  predicate PhaseInv(lease: seq<Record>, writes: seq<Write>, id: string, e: Elector) {
    && (Waits(e.phase) ==>
          && WaitsOn(e.phase) < |writes|
          && writes[WaitsOn(e.phase)].owner == id
          && (e.phase.Releasing? ==> e.cached.Some? && writes[WaitsOn(e.phase)].base == e.cached
                                     && writes[WaitsOn(e.phase)].record.holder == "")
          && (e.phase.Attempting? ==> writes[WaitsOn(e.phase)].record == e.phase.record)
          && (e.phase.Attempting? && e.phase.stage.CreateWait? ==>
                e.cached.None? && writes[WaitsOn(e.phase)].base.None?)
          && (e.phase.Attempting? && !e.phase.stage.CreateWait? ==>
                e.cached.Some? && writes[WaitsOn(e.phase)].base == e.cached))
    && (e.phase.Attempting? ==> e.phase.record.holder == id && FitsI32(e.phase.record.transitions))
    && (e.phase.Attempting? && e.phase.stage.GetWait? && e.phase.stage.reply.Some? ==>
          match e.phase.stage.reply.value
          case None => e.cached.None?
          case Some(v) => v < |lease| && (e.cached.Some? ==> e.cached.value <= v))
  }

  predicate ElectorInv(lease: seq<Record>, writes: seq<Write>, id: string, e: Elector) {
    id != "" && BeliefInv(lease, id, e) && PhaseInv(lease, writes, id, e)
  }

  predicate Inv(s: State) {
    && Chain(s.lease)
    && (forall i :: 0 <= i < |s.lease| ==> FitsI32(s.lease[i].transitions))
    && (forall w :: 0 <= w < |s.writes| ==> WriteInv(s.lease, s.electors, s.writes[w]))
    && (forall id :: id in s.electors ==> ElectorInv(s.lease, s.writes, id, s.electors[id]))
  }

  // ----- every step keeps the invariant -----

  lemma InitInv(s: State)
    requires Init(s)
    ensures Inv(s)
  {
  }

  predicate OwnWritesNotAhead(s: State, id: string, e: Elector) {
    forall w :: 0 <= w < |s.writes| ==>
      (s.writes[w].owner == id && s.writes[w].status.InFlight? && s.writes[w].base.Some? ==>
         NotAhead(e, s.writes[w].base.value))
  }

  /** A step that changes one elector and leaves Lease and writes alone. */
  lemma ElectorStep(s: State, id: string, e: Elector)
    requires Inv(s) && id in s.electors
    requires ElectorInv(s.lease, s.writes, id, e)
    requires OwnWritesNotAhead(s, id, e)
    ensures Inv(SetElector(s, id, e))
  {
    var s' := SetElector(s, id, e);
    forall w | 0 <= w < |s'.writes|
      ensures WriteInv(s'.lease, s'.electors, s'.writes[w])
    {
      assert WriteInv(s.lease, s.electors, s.writes[w]);
    }
  }

  /** A step that hands a request to the network and waits for its answer. */
  lemma RequestStep(s: State, id: string, e: Elector, base: Option<nat>, record: Record)
    requires Inv(s) && id in s.electors
    requires ElectorInv(s.lease, s.writes + [Write(id, base, record, InFlight)], id, e)
    requires WriteInv(s.lease, s.electors[id := e], Write(id, base, record, InFlight))
    requires OwnWritesNotAhead(s, id, e)
    ensures Inv(SetElector(Issue(s, id, base, record), id, e))
  {
    var s' := SetElector(Issue(s, id, base, record), id, e);
    forall w | 0 <= w < |s'.writes|
      ensures WriteInv(s'.lease, s'.electors, s'.writes[w])
    {
      if w < |s.writes| {
        assert WriteInv(s.lease, s.electors, s.writes[w]);
      }
    }
    forall i | i in s'.electors
      ensures ElectorInv(s'.lease, s'.writes, i, s'.electors[i])
    {
      if i != id {
        assert ElectorInv(s.lease, s.writes, i, s.electors[i]);
      }
    }
  }

  lemma ExtendBelief(lease: seq<Record>, r: Record, id: string, e: Elector)
    requires BeliefInv(lease, id, e)
    ensures BeliefInv(lease + [r], id, e)
  {
    if e.raw.Some? {
      var i :| 0 <= i <= e.cached.value && lease[i] == e.raw.value;
      assert (lease + [r])[i] == e.raw.value;
    }
  }

  lemma ExtendChain(lease: seq<Record>, r: Record)
    requires Chain(lease) && (lease != [] ==> Linked(lease[|lease| - 1], r))
    ensures Chain(lease + [r])
  {
    var longer := lease + [r];
    forall i | 0 <= i < |longer| - 1
      ensures Linked(longer[i], longer[i + 1])
    {
      if i < |lease| - 1 {
        assert Linked(lease[i], lease[i + 1]);
      }
    }
  }

  lemma ServedElector(s: State, w: nat, id: string)
    requires Enabled(s, ServeWrite(w)) && id in s.electors
    requires ElectorInv(s.lease, s.writes, id, s.electors[id])
    ensures ElectorInv(DoServeWrite(s, w).lease, DoServeWrite(s, w).writes, id, s.electors[id])
  {
    ExtendBelief(s.lease, Stored(s.writes[w].record), id, s.electors[id]);
  }

  lemma ServedWrite(s: State, w: nat, k: nat)
    requires Enabled(s, ServeWrite(w)) && k < |s.writes|
    requires WriteInv(s.lease, s.electors, s.writes[k])
    ensures WriteInv(DoServeWrite(s, w).lease, s.electors, DoServeWrite(s, w).writes[k])
  {
  }

  /** A request that passes the version check extends the chain by one link. */
  lemma AppliedWriteLinks(s: State, w: nat)
    requires Inv(s) && Enabled(s, ServeWrite(w)) && NoWrap(s.lease)
    requires |DoServeWrite(s, w).lease| > |s.lease|
    ensures FitsI32(s.writes[w].record.transitions)
    ensures s.lease != [] ==> Linked(s.lease[|s.lease| - 1], Stored(s.writes[w].record))
  {
    var wr := s.writes[w];
    assert WriteInv(s.lease, s.electors, wr);
    assert ElectorInv(s.lease, s.writes, wr.owner, s.electors[wr.owner]);
  }

  lemma ServeWriteStep(s: State, w: nat)
    requires Inv(s) && Enabled(s, ServeWrite(w)) && NoWrap(s.lease)
    ensures Inv(Do(s, ServeWrite(w)))
  {
    var s' := DoServeWrite(s, w);
    if |s'.lease| > |s.lease| {
      AppliedWriteLinks(s, w);
      ExtendChain(s.lease, Stored(s.writes[w].record));
    }
    forall k | 0 <= k < |s'.writes|
      ensures WriteInv(s'.lease, s'.electors, s'.writes[k])
    {
      ServedWrite(s, w, k);
    }
    forall id | id in s'.electors
      ensures ElectorInv(s'.lease, s'.writes, id, s'.electors[id])
    {
      ServedElector(s, w, id);
    }
  }

  lemma WritesNotAhead(s: State, id: string)
    requires Inv(s) && id in s.electors
    ensures OwnWritesNotAhead(s, id, s.electors[id])
  {
    forall w | 0 <= w < |s.writes|
      ensures s.writes[w].owner == id && s.writes[w].status.InFlight? && s.writes[w].base.Some? ==>
                NotAhead(s.electors[id], s.writes[w].base.value)
    {
      assert WriteInv(s.lease, s.electors, s.writes[w]);
    }
  }

  lemma BeginAttemptStep(s: State, id: string, loop: Loop)
    requires Inv(s) && id in s.electors
    requires s.electors[id].phase.AcquireSleep? || s.electors[id].phase.RenewSleep? || s.electors[id].phase.WindowSleep?
    ensures Inv(BeginAttempt(s, id, s.electors[id], loop))
  {
    var e := s.electors[id];
    assert ElectorInv(s.lease, s.writes, id, e);
    WritesNotAhead(s, id);
    var own := OwnRecord(id, e, s.now);
    if IsLeader(id, e) && IsLeaseValid(e, s.now) {
      var record := Renewal(own, e.observed);
      RequestStep(s, id, e.(phase := Attempting(loop, record, s.now, s.now, FastWait(|s.writes|))), e.cached, record);
    } else {
      ElectorStep(s, id, e.(phase := Attempting(loop, own, s.now, s.now, GetWait(None))));
    }
  }

  lemma ServeGetStep(s: State, id: string)
    requires Inv(s) && Enabled(s, ServeGet(id))
    ensures Inv(Do(s, ServeGet(id)))
  {
    var e := s.electors[id];
    assert ElectorInv(s.lease, s.writes, id, e);
    var reply := if |s.lease| == 0 then None else Some(|s.lease| - 1);
    var e' := e.(phase := e.phase.(stage := GetWait(Some(reply))));
    forall w | 0 <= w < |s.writes|
      ensures s.writes[w].owner == id && s.writes[w].status.InFlight? && s.writes[w].base.Some? ==>
                NotAhead(e', s.writes[w].base.value)
    {
      assert WriteInv(s.lease, s.electors, s.writes[w]);
    }
    ElectorStep(s, id, e');
  }

  /** Reading version `v` leaves an elector's belief in agreement with it, even
      when the record equals the last one read and `observed` is not refreshed. */
  lemma ObserveKeepsBelief(lease: seq<Record>, id: string, e: Elector, v: nat, now: int)
    requires Chain(lease) && id != "" && BeliefInv(lease, id, e) && !e.phase.Idle?
    requires v < |lease| && (e.cached.Some? ==> e.cached.value <= v)
    ensures BeliefInv(lease, id, Observe(e, v, lease[v], now))
    ensures IsLeader(id, Observe(e, v, lease[v], now)) <==> lease[v].holder == id
    ensures !IsLeader(id, Observe(e, v, lease[v], now)) ==> Observe(e, v, lease[v], now).observed == lease[v]
  {
    var e' := Observe(e, v, lease[v], now);
    assert SeenUpTo(lease, lease[v], v);
    if e.raw == Some(lease[v]) {
      var i :| 0 <= i <= e.cached.value && lease[i] == e.raw.value;
      ChainOrdersHolders(lease, i, e.cached.value);
      ChainOrdersHolders(lease, e.cached.value, v);
    }
  }

  lemma GetReplyStep(s: State, id: string, nap: nat)
    requires Inv(s) && Enabled(s, GetReply(id, nap)) && NoWrap(s.lease)
    ensures Inv(Do(s, GetReply(id, nap)))
  {
    var e := s.electors[id];
    var p := e.phase;
    assert ElectorInv(s.lease, s.writes, id, e);
    WritesNotAhead(s, id);
    match p.stage.reply.value
    case None =>
      RequestStep(s, id, e.(phase := p.(issued := s.now, stage := CreateWait(|s.writes|))), None, p.record);
    case Some(v) =>
      var seen := Observe(e, v, s.lease[v], s.now);
      ObserveKeepsBelief(s.lease, id, e, v, s.now);
      if HeldByOther(id, seen, s.lease[v], s.now) {
        GetReplyBlocked(s, id, nap, v);
      } else {
        var record := SlowRecord(id, seen, p.record, s.lease[v]);
        RequestStep(s, id, seen.(phase := p.(record := record, issued := s.now, stage := SlowWait(|s.writes|))),
                    seen.cached, record);
      }
  }

  lemma GetReplyBlocked(s: State, id: string, nap: nat, v: nat)
    requires Inv(s) && Enabled(s, GetReply(id, nap))
    requires s.electors[id].phase.stage.reply == Some(Some(v))
    ensures Inv(AttemptFailed(s, id, Observe(s.electors[id], v, s.lease[v], s.now), s.electors[id].phase.loop, nap))
  {
    var e := s.electors[id];
    assert ElectorInv(s.lease, s.writes, id, e);
    WritesNotAhead(s, id);
    ObserveKeepsBelief(s.lease, id, e, v, s.now);
    var seen := Observe(e, v, s.lease[v], s.now);
    ElectorStep(s, id, AttemptFailed(s, id, seen, e.phase.loop, nap).electors[id]);
  }

  lemma WriteAckStep(s: State, id: string)
    requires Inv(s) && Enabled(s, WriteAck(id)) && NoWrap(s.lease)
    ensures Inv(Do(s, WriteAck(id)))
  {
    var e := s.electors[id];
    var wr := s.writes[WaitsOn(e.phase)];
    assert ElectorInv(s.lease, s.writes, id, e);
    assert WriteInv(s.lease, s.electors, wr);
    WritesNotAhead(s, id);
    if e.raw.Some? {
      var i :| 0 <= i <= e.cached.value && s.lease[i] == e.raw.value;
      assert SeenUpTo(s.lease, e.raw.value, wr.status.version);
    }
    ElectorStep(s, id, DoWriteAck(s, id).electors[id]);
  }

  lemma WriteFailStep(s: State, id: string, nap: nat)
    requires Inv(s) && Enabled(s, WriteFail(id, nap))
    ensures Inv(Do(s, WriteFail(id, nap)))
  {
    WriteFailElector(s, id, nap);
    hide ElectorInv, OwnWritesNotAhead;
    ElectorStep(s, id, DoWriteFail(s, id, nap).electors[id]);
  }

  lemma WriteFailElector(s: State, id: string, nap: nat)
    requires Inv(s) && Enabled(s, WriteFail(id, nap))
    ensures id in DoWriteFail(s, id, nap).electors
    ensures var e := DoWriteFail(s, id, nap).electors[id];
            ElectorInv(s.lease, s.writes, id, e) && OwnWritesNotAhead(s, id, e)
  {
    assert ElectorInv(s.lease, s.writes, id, s.electors[id]);
    WritesNotAhead(s, id);
    hide Inv;
  }

  lemma ReleaseStep(s: State, id: string)
    requires Inv(s) && Enabled(s, Release(id))
    ensures Inv(Do(s, Release(id)))
  {
    var e := s.electors[id];
    assert ElectorInv(s.lease, s.writes, id, e);
    WritesNotAhead(s, id);
    if IsLeader(id, e) && e.cached.Some? {
      RequestStep(s, id, e.(phase := Releasing(|s.writes|)), e.cached, ReleaseRecord(e, s.now));
    } else {
      ElectorStep(s, id, EndTerm(s, id, e).electors[id]);
    }
  }

  lemma PlainStep(s: State, step: Step)
    requires Inv(s) && Enabled(s, step)
    requires step.StartTerm? || step.GetFail? || step.CancelAcquire? || step.StopRenew? || step.StepDown? || step.Restart?
    ensures Inv(Do(s, step))
  {
    assert ElectorInv(s.lease, s.writes, step.id, s.electors[step.id]);
    WritesNotAhead(s, step.id);
    ElectorStep(s, step.id, Do(s, step).electors[step.id]);
  }

  lemma BeginStep(s: State, step: Step)
    requires Inv(s) && Enabled(s, step)
    requires step.BeginAcquire? || step.BeginWindow? || step.RetryInWindow?
    ensures Inv(Do(s, step))
  {
    var e := s.electors[step.id];
    var loop := match step
      case BeginAcquire(_) => Acquire
      case BeginWindow(_) => Renew(s.now + e.config.renewDeadline)
      case RetryInWindow(_) => Renew(e.phase.deadline);
    BeginAttemptStep(s, step.id, loop);
    assert Do(s, step) == BeginAttempt(s, step.id, e, loop);
  }

  lemma TickStep(s: State, step: Step)
    requires Inv(s) && step.Tick?
    ensures Inv(Do(s, step))
  {
    assert Do(s, step) == s.(now := s.now + step.dt);
  }

  lemma StepInv(s: State, step: Step)
    requires Inv(s) && Enabled(s, step) && NoWrap(s.lease)
    ensures Inv(Do(s, step))
  {
    if step.Tick? {
      TickStep(s, step);
    } else if step.BeginAcquire? || step.BeginWindow? || step.RetryInWindow? {
      BeginStep(s, step);
    } else if step.ServeWrite? || step.ServeGet? || step.GetReply? || step.WriteAck? || step.WriteFail? || step.Release? {
      ServerStep(s, step);
    } else {
      PlainStep(s, step);
    }
  }

  lemma ServerStep(s: State, step: Step)
    requires Inv(s) && Enabled(s, step) && NoWrap(s.lease)
    requires step.ServeWrite? || step.ServeGet? || step.GetReply? || step.WriteAck? || step.WriteFail? || step.Release?
    ensures Inv(Do(s, step))
  {
    match step
    case ServeWrite(w) => ServeWriteStep(s, w);
    case ServeGet(id) => ServeGetStep(s, id);
    case GetReply(id, nap) => GetReplyStep(s, id, nap);
    case WriteAck(id) => WriteAckStep(s, id);
    case WriteFail(id, nap) => WriteFailStep(s, id, nap);
    case Release(id) => ReleaseStep(s, id);
  }

  lemma LeaseOnlyGrows(s: State, step: Step)
    requires Enabled(s, step)
    ensures s.lease <= Do(s, step).lease
  {
  }

  lemma {:induction false} RunInv(states: seq<State>, steps: seq<Step>, n: nat)
    requires Run(states, steps) && Init(states[0]) && n < |states|
    requires NoWrap(states[n].lease)
    ensures Inv(states[n])
  {
    if n == 0 {
      InitInv(states[0]);
    } else {
      LeaseOnlyGrows(states[n - 1], steps[n - 1]);
      RunInv(states, steps, n - 1);
      StepInv(states[n - 1], steps[n - 1]);
    }
  }

  // ----- the theorems -----

  /** Fencing. Whatever the electors, the network and the clocks do, over all
      versions the Lease ever had the counter never goes down, it is strictly
      larger under every later holder, it goes up exactly when the Lease passes
      to somebody else, and versions with the same count and a holder have the
      same holder and the same time of acquisition. */
  lemma Fencing(states: seq<State>, steps: seq<Step>, n: nat, i: nat, j: nat)
    requires Run(states, steps) && Init(states[0]) && n < |states|
    requires NoWrap(states[n].lease)
    requires i < j < |states[n].lease|
    ensures var a, b := states[n].lease[i], states[n].lease[j];
            && a.transitions <= b.transitions
            && (a.holder != "" && b.holder != "" && a.holder != b.holder ==> a.transitions < b.transitions)
            && (b.holder != "" && a.transitions == b.transitions ==> a.holder == b.holder && a.acquireTime == b.acquireTime)
            && (j == i + 1 ==> (a.transitions < b.transitions <==> b.holder != "" && b.holder != a.holder))
  {
    RunInv(states, steps, n);
    ChainOrdersHolders(states[n].lease, i, j);
    assert j == i + 1 ==> Linked(states[n].lease[i], states[n].lease[i + 1]);
  }

  /** At the largest 32-bit count the next take-over wraps: the token drops to
      the smallest count, which is why `NoWrap` is needed. Below it the stored
      count is exact. */
  lemma TakeoverCountsExactly(id: string, e: Elector, record: Record, prior: Record)
    requires FitsI32(prior.transitions) && !IsLeader(id, e)
    ensures Stored(SlowRecord(id, e, record, prior)).transitions ==
              if prior.transitions == I32_MAX then I32_MIN else prior.transitions + 1
  {
  }

  /** Coherence, first half: when the slow path is about to write as the leader,
      the version it just read names this elector and carries the count it
      writes back; when it writes as a challenger, that version names somebody
      else or nobody, and is exactly what the elector has observed. */
  lemma SlowPathKnowsHolder(states: seq<State>, steps: seq<Step>, n: nat, id: string, v: nat)
    requires Run(states, steps) && Init(states[0]) && n < |states|
    requires NoWrap(states[n].lease) && id in states[n].electors
    requires states[n].electors[id].phase.Attempting?
    requires states[n].electors[id].phase.stage == GetWait(Some(Some(v)))
    ensures v < |states[n].lease|
    ensures var prior := states[n].lease[v];
            var seen := Observe(states[n].electors[id], v, prior, states[n].now);
            && (IsLeader(id, seen) <==> prior.holder == id)
            && (IsLeader(id, seen) ==> seen.observed.transitions == prior.transitions)
            && (!IsLeader(id, seen) ==> seen.observed == prior)
  {
    RunInv(states, steps, n);
    var e := states[n].electors[id];
    assert ElectorInv(states[n].lease, states[n].writes, id, e);
    ObserveKeepsBelief(states[n].lease, id, e, v, states[n].now);
  }

  /** Coherence, second half: a step that changes the Lease serves a request of
      some elector that carries the current version, and that elector has not
      been overtaken: the newest version it has seen is the one it replaces. */
  lemma OnlyCurrentElectorsWrite(states: seq<State>, steps: seq<Step>, n: nat)
    requires Run(states, steps) && Init(states[0]) && n < |steps|
    requires NoWrap(states[n].lease) && states[n].lease != []
    requires states[n + 1].lease != states[n].lease
    ensures steps[n].ServeWrite?
    ensures var s, wr := states[n], states[n].writes[steps[n].w];
            && wr.owner in s.electors
            && wr.base == Some(|s.lease| - 1)
            && (s.electors[wr.owner].cached.Some? ==> s.electors[wr.owner].cached == wr.base)
            && Follows(s.lease[|s.lease| - 1], wr.owner, wr.record)
            && states[n + 1].lease == s.lease + [Stored(wr.record)]
  {
    RunInv(states, steps, n);
    OnlyServingChanges(states[n], steps[n]);
    CurrentWrite(states[n], steps[n].w);
    hide Inv, ElectorInv, WriteInv;
  }

  lemma OnlyServingChanges(s: State, step: Step)
    requires Enabled(s, step) && Do(s, step).lease != s.lease
    ensures step.ServeWrite?
  {
  }

  /** A write that passes the version check is its owner's, on the newest version. */
  lemma CurrentWrite(s: State, w: nat)
    requires Inv(s) && Enabled(s, ServeWrite(w)) && s.lease != [] && DoServeWrite(s, w).lease != s.lease
    ensures var wr := s.writes[w];
            && wr.owner in s.electors
            && wr.base == Some(|s.lease| - 1)
            && (s.electors[wr.owner].cached.Some? ==> s.electors[wr.owner].cached == wr.base)
            && Follows(s.lease[|s.lease| - 1], wr.owner, wr.record)
            && DoServeWrite(s, w).lease == s.lease + [Stored(wr.record)]
  {
    var wr := s.writes[w];
    assert WriteInv(s.lease, s.electors, wr);
    assert ElectorInv(s.lease, s.writes, wr.owner, s.electors[wr.owner]);
  }
}
