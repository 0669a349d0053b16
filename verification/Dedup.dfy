/** The poller's memory of what it has already handled. Times are integers in
    one unit; `HOUR` is that unit's hour. */
module DedupMemory {
  import opened Wrappers

  const HOUR: int := 3600
  const PRUNE_AFTER: int := 72 * HOUR

  /** ARN to the latest update time handled. */
  type Seen = map<string, int>

  predicate ShouldProcess(seen: Seen, arn: string, updated: Option<int>) {
    arn in seen && updated.Some? ==> updated.value > seen[arn]
  }

  /** An update without a time is stamped with the current time. */
  function Mark(seen: Seen, arn: string, updated: Option<int>, now: int): Seen {
    seen[arn := match updated case Some(u) => u case None => now]
  }

  function Prune(seen: Seen, cutoff: int): Seen {
    map arn | arn in seen && seen[arn] >= cutoff :: seen[arn]
  }

  /** Forgetting is invisible to updates from `from` on exactly if everything
      forgotten is older than `from`. */
  lemma PruneIsInvisibleExactly(seen: Seen, cutoff: int, from: int)
    ensures (forall arn, u :: u >= from ==> (ShouldProcess(Prune(seen, cutoff), arn, Some(u)) <==> ShouldProcess(seen, arn, Some(u))))
            <==> forall arn :: arn in seen && seen[arn] < cutoff ==> seen[arn] < from
  {
    if forall arn, u :: u >= from ==> (ShouldProcess(Prune(seen, cutoff), arn, Some(u)) <==> ShouldProcess(seen, arn, Some(u))) {
      forall arn | arn in seen && seen[arn] < cutoff
        ensures seen[arn] < from
      {
        var u := if seen[arn] < from then from else seen[arn];
        assert ShouldProcess(Prune(seen, cutoff), arn, Some(u));
      }
    }
  }

  /** After an update without a time, nothing up to the last handled update is
      handled again exactly if the clock is not behind that update. */
  lemma UntimedMarkIsSafeExactly(seen: Seen, arn: string, now: int)
    requires arn in seen
    ensures (forall u :: u <= seen[arn] ==> !ShouldProcess(Mark(seen, arn, None, now), arn, Some(u))) <==> now >= seen[arn]
  {
    if now < seen[arn] {
      assert ShouldProcess(Mark(seen, arn, None, now), arn, Some(seen[arn]));
    }
  }

  class Dedup {
    var seen: Seen

    constructor ()
      ensures seen == map[]
    {
      seen := map[];
    }

    predicate Fresh(arn: string, updated: Option<int>)
      reads this
      ensures Fresh(arn, updated) <==> ShouldProcess(seen, arn, updated)
    {
      match updated
      case None => true
      case Some(u) => if arn in seen then u > seen[arn] else true
    }

    method MarkProcessed(arn: string, updated: Option<int>, now: int)
      modifies this
      ensures seen == Mark(old(seen), arn, updated, now)
    {
      var stamp := match updated case Some(u) => u case None => now;
      seen := seen[arn := stamp];
    }

    /** Keeps exactly the entries no older than the time to live. */
    method PruneOlderThan(ttl: int, now: int)
      modifies this
      ensures seen == Prune(old(seen), now - ttl)
      ensures forall arn :: arn in seen <==> arn in old(seen) && old(seen)[arn] >= now - ttl
    {
      var cutoff := now - ttl;
      seen := map arn | arn in seen && seen[arn] >= cutoff :: seen[arn];
    }
  }
}
