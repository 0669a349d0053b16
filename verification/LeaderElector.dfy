/** One election attempt as the elector runs it, request by request, against an
    API server that may drop a request or lose its answer. */
module LeaderElectorObject {
  import opened Wrappers
  import opened LeaseRecord
  import opened LeaseElection
  import opened LeaseFencing
  import opened LeaseAttempt

  predicate WellFormed(lease: seq<Record>) {
    && Chain(lease) && NoWrap(lease)
    && forall i :: 0 <= i < |lease| ==> FitsI32(lease[i].transitions)
  }

  /** The API server's Lease object: every version it has stored. */
  class LeaseServer {
    var lease: seq<Record>

    constructor ()
      ensures lease == []
    {
      lease := [];
    }

    method Get(fault: Fault) returns (reply: Result<Option<nat>, string>)
      ensures reply.Success? <==> fault.Fine?
      ensures reply.Success? ==> reply.value == if lease == [] then None else Some(|lease| - 1)
    {
      if !fault.Fine? {
        return Failure("unavailable");
      }
      return Success(if lease == [] then None else Some(|lease| - 1));
    }

    /** Creates (`base.None?`) or replaces version `base`; the new version on success. */
    method Put(base: Option<nat>, record: Record, fault: Fault) returns (reply: Result<nat, string>)
      modifies this
      ensures var current := if old(lease) == [] then None else Some(|old(lease)| - 1);
              lease == if base == current && !fault.Dropped? then old(lease) + [Stored(record)] else old(lease)
      ensures reply.Success? <==> |lease| > |old(lease)| && fault.Fine?
      ensures reply.Success? ==> reply.value == |old(lease)|
    {
      var current := if lease == [] then None else Some(|lease| - 1);
      if base != current || fault.Dropped? {
        return Failure("conflict");
      }
      lease := lease + [Stored(record)];
      if fault.Unacknowledged? {
        return Failure("timeout");
      }
      return Success(|lease| - 1);
    }
  }

  class LeaderElector {
    const identity: string
    const config: Config
    const skew: int
    var cached: Option<nat>
    var observed: Record
    var raw: Option<Record>
    var observedTime: int
    var ended: bool              // the release was acknowledged; the term makes no more attempts

    /** A new term: nothing observed yet, the lock's cached object kept. */
    constructor (identity: string, config: Config, skew: int, cached: Option<nat>, now: int)
      ensures this.identity == identity && this.config == config && this.skew == skew
      ensures View() == Elector(config, skew, cached, DEFAULT_RECORD, None, now, false, RenewOver)
    {
      this.identity, this.config, this.skew := identity, config, skew;
      this.cached, observed, raw, observedTime := cached, DEFAULT_RECORD, None, now;
      ended := false;
    }

    /** The elector's belief as a value of the protocol model. */
    ghost function View(): Elector
      reads this
    {
      Elector(config, skew, cached, observed, raw, observedTime, false, if ended then Idle(0) else RenewOver)
    }

    ghost predicate Valid(server: LeaseServer)
      reads this, server
    {
      !ended && identity != "" && WellFormed(server.lease) && BeliefInv(server.lease, identity, View())
    }

    method SetObservedRecord(record: Record, now: int)
      modifies this
      ensures View() == SetObserved(old(View()), record, now)
    {
      observed, observedTime := record, now;
    }

    /** `LeaseLock::update` followed by the observation of an acknowledged write;
        without a cached Lease it is an error. */
    method Update(server: LeaseServer, record: Record, now: int, fault: Fault) returns (ok: bool)
      requires Valid(server)
      requires cached.Some? ==> Follows(server.lease[cached.value], identity, record)
      modifies this, server
      ensures WellFormedButLast(server.lease) && BeliefInv(server.lease, identity, View())
      ensures record.transitions < I32_MAX ==> WellFormed(server.lease)
      ensures Effect(View().(phase := RenewOver), server.lease, ok) ==
              if old(cached).None? then Effect(old(View()), old(server.lease), false)
              else Written(old(View()), old(server.lease), old(cached), record, fault, now)
      ensures ended == (ok && record.holder == "")
    {
      if cached.None? {
        return false;
      }
      AppendLinks(server.lease, cached.value, identity, record);
      ghost var before := View();
      var reply := server.Put(cached, record, fault);
      if |server.lease| > |old(server.lease)| {
        ExtendBelief(old(server.lease), Stored(record), identity, before);
      }
      if reply.Failure? {
        return false;
      }
      cached := Some(reply.value);
      SetObservedRecord(record, now);
      ended := record.holder == "";
      if raw.Some? {
        ghost var i :| 0 <= i <= before.cached.value && old(server.lease)[i] == raw.value;
        assert server.lease[i] == raw.value;
      }
      return true;
    }

    /** Takes over the version just read, unless it is the one read before. */
    method ObserveRead(server: LeaseServer, v: nat, now: int)
      requires Valid(server) && v == |server.lease| - 1
      modifies this
      ensures View() == Observe(old(View()), v, server.lease[v], now)
      ensures BeliefInv(server.lease, identity, View())
      ensures IsLeader(identity, View()) <==> server.lease[v].holder == identity
    {
      var prior := server.lease[v];
      ObserveKeepsBelief(server.lease, identity, View(), v, now);
      cached := Some(v);
      if raw != Some(prior) {
        SetObservedRecord(prior, now);
        raw := Some(prior);
      }
    }

    method CreateLease(server: LeaseServer, record: Record, now: int, fault: Fault) returns (ok: bool)
      requires Valid(server) && server.lease == [] && record.holder == identity && record.transitions == 0
      modifies this, server
      ensures WellFormedButLast(server.lease) && BeliefInv(server.lease, identity, View())
      ensures Effect(View(), server.lease, ok) == Written(old(View()), [], None, record, fault, now)
    {
      WireRoundTrip(record);
      var reply := server.Put(None, record, fault);
      if reply.Failure? {
        return false;
      }
      cached := Some(reply.value);
      SetObservedRecord(record, now);
      return true;
    }

    /** Read, decide, write. */
    method SlowPath(server: LeaseServer, own: Record, now: int, read: Fault, write: Fault) returns (ok: bool)
      requires Valid(server) && own.holder == identity
      requires server.lease == [] ==> own.transitions == 0
      modifies this, server
      ensures WellFormedButLast(server.lease) && BeliefInv(server.lease, identity, View())
      ensures Effect(View(), server.lease, ok) ==
              SlowEffect(identity, old(View()), old(server.lease), own, now, read, write)
      ensures ok ==> IsLeader(identity, View())
      ensures !ok && read.Fine? && write.Fine? ==>
                && server.lease == old(server.lease) != []
                && HeldByOther(identity, View(), server.lease[|server.lease| - 1], now)
    {
      var record := own;
      var reply := server.Get(read);
      if reply.Failure? {
        return false;
      }
      if reply.value.None? {
        ok := CreateLease(server, record, now, write);
        return;
      }
      var v := reply.value.value;
      var prior := server.lease[v];
      ObserveRead(server, v, now);
      if prior.holder != "" && observedTime + LeaseNanos(observed) > now && observed.holder != identity {
        return false;
      }
      if observed.holder == identity {
        record := record.(acquireTime := prior.acquireTime, transitions := prior.transitions);
      } else {
        record := record.(transitions := prior.transitions + 1);
      }
      ok := Update(server, record, now, write);
    }

    /** One attempt. Whatever is lost on the way, Lease and elector are what the
        protocol's steps make of them, belief and Lease stay in agreement, the
        Lease history stays a chain, and what is written obeys the law of an
        attempt; and when nothing is lost, an attempt fails only against an
        unexpired Lease of somebody else. */
    method TryAcquireOrRenew(server: LeaseServer, now: int, fast: Fault, read: Fault, write: Fault) returns (ok: bool)
      requires Valid(server)
      modifies this, server
      ensures WellFormedButLast(server.lease) && BeliefInv(server.lease, identity, View())
      ensures Effect(View(), server.lease, ok) ==
              AttemptEffect(identity, old(View()), old(server.lease), now, fast, read, write)
      ensures AttemptLaw(identity, old(View()), old(server.lease), now, Effect(View(), server.lease, ok))
      ensures ok ==> IsLeader(identity, View())
      ensures !ok && fast.Fine? && read.Fine? && write.Fine? ==>
                && server.lease == old(server.lease) != []
                && HeldByOther(identity, View(), server.lease[|server.lease| - 1], now)
    {
      AttemptWrites(identity, View(), server.lease, now, fast, read, write);
      if observed.holder == identity {
        RenewalFits(identity, View(), server.lease, now);
      }
      AttemptOutcome(identity, View(), server.lease, now, fast, read, write);
      hide SlowEffect, AttemptLaw, BeliefInv, Follows, WellFormed, WellFormedButLast, HeldByOther, Stored;
      var record := Record(identity, config.LeaseSeconds(), Some(now + skew), Some(now + skew), 0);
      if observed.holder == identity && observedTime + LeaseNanos(observed) > now {
        record := record.(acquireTime := observed.acquireTime, transitions := observed.transitions);
        ok := Update(server, record, now, fast);
        if ok {
          return;
        }
      }
      ok := SlowPath(server, record, now, read, write);
    }

    /** Gives the Lease up if this elector believes to hold it. */
    method Release(server: LeaseServer, now: int, fault: Fault) returns (ok: bool)
      requires Valid(server)
      modifies this, server
      ensures WellFormedButLast(server.lease) && BeliefInv(server.lease, identity, View())
      ensures Effect(View().(phase := RenewOver), server.lease, ok) ==
              ReleaseEffect(identity, old(View()), old(server.lease), now, fault)
      ensures ended == (ok && IsLeader(identity, old(View())))
      ensures server.lease == old(server.lease) || Released(old(server.lease), server.lease, identity)
      ensures ok ==> !IsLeader(identity, View())
    {
      if observed.holder != identity {
        return true;
      }
      var record := Record("", 1, Some(now + skew), Some(now + skew), observed.transitions);
      ok := Update(server, record, now, fault);
    }
  }

  /** `after` is `before`, last held by `id`, plus a vacant record with the same count. */
  predicate Released(before: seq<Record>, after: seq<Record>, id: string) {
    && |before| > 0 && |after| == |before| + 1 && before <= after
    && before[|before| - 1].holder == id
    && after[|before|].holder == ""
    && after[|before|].transitions == before[|before| - 1].transitions
  }

  /** A believed leader has a cached version, which its renewal can follow. */
  lemma RenewalFits(id: string, e: Elector, lease: seq<Record>, now: int)
    requires BeliefInv(lease, id, e) && IsLeader(id, e) && WellFormed(lease)
    ensures e.cached.Some? && e.cached.value < |lease| && lease != []
    ensures var record := Renewal(OwnRecord(id, e, now), e.observed);
            Follows(lease[e.cached.value], id, record) && record.transitions < I32_MAX
  {
  }

  /** Every version but the newest is below the largest count. */
  predicate WellFormedButLast(lease: seq<Record>) {
    Chain(lease) && forall i :: 0 <= i < |lease| ==> FitsI32(lease[i].transitions)
  }

  lemma AppendLinks(lease: seq<Record>, v: nat, id: string, record: Record)
    requires WellFormed(lease) && v < |lease| && id != "" && Follows(lease[v], id, record)
    ensures FitsI32(record.transitions) && Stored(record).transitions == record.transitions
    ensures v == |lease| - 1 ==> WellFormedButLast(lease + [Stored(record)])
  {
    WireRoundTrip(record);
    if v == |lease| - 1 {
      ExtendChain(lease, Stored(record));
    }
  }
}
