/** The standby's replicator as an object: one sync cycle, promotion and
    demotion, each run without interference. */
module ReplicatorObject {
  import opened Wrappers
  import opened BlobPages
  import opened BlobMerge
  import opened Replication

  /** What looking up the leader yields: an error, nobody, or a leader with the
      answers it gives during this cycle. */
  datatype Lookup = Unresolved | NoLeader | Leader(snapshot: Option<Snapshot>, listing: seq<Digest>, complete: bool, answer: Digest -> Answer)

  class Replicator {
    const store: BlobStore
    var isLeader: bool
    var committed: Option<Snapshot>
    var database: set<Digest>          // the blobs the local database references

    constructor (store: BlobStore, database: set<Digest>)
      ensures this.store == store && !isLeader && committed == None && this.database == database
    {
      this.store, isLeader, committed, this.database := store, false, None, database;
    }

    /** One cycle: snapshot first, blobs second, commit last. A snapshot is
        committed only after the whole merge succeeded, and then the store is the
        exact mirror; a cycle that fails commits nothing, and leaves the store as
        the merge does that stops at the first digest that fails. `local` is
        missing if the walk over the local blobs fails. */
    method Sync(lookup: Lookup, local: Option<seq<Digest>>, deletable: Digest -> bool, renamed: bool)
      returns (ok: bool, ghost stop: Option<Digest>)
      requires local.Some? ==> Increasing(local.value) && store.blobs == ToSet(local.value)
      requires lookup.Leader? ==> Increasing(lookup.listing)
      modifies this`committed, store
      ensures isLeader || !lookup.Leader? ==> ok == (isLeader || lookup.NoLeader?)
      ensures isLeader || !lookup.Leader? || lookup.snapshot.None? || local.None? ==> store.blobs == old(store.blobs)
      ensures !isLeader && lookup.Leader? && lookup.snapshot.Some? && local.Some? ==>
                && StopsAt(stop, old(store.blobs), lookup.listing, lookup.complete, lookup.answer, deletable)
                && store.blobs == Merged(old(store.blobs), lookup.listing, lookup.complete, lookup.answer, stop)
      ensures committed == if ok && !isLeader && lookup.Leader? then lookup.snapshot else old(committed)
      ensures ok && !isLeader && lookup.Leader? ==>
                lookup.snapshot.Some? && store.blobs == Mirrored(old(store.blobs), lookup.listing, lookup.answer)
      ensures !isLeader && lookup.Leader? ==>
                (ok <==> && lookup.snapshot.Some? && local.Some? && lookup.complete && renamed
                         && (forall d :: d in lookup.listing && d !in old(store.blobs) ==>
                               lookup.answer(d) == NotFound || Serves(lookup.answer(d), d))
                         && (forall d :: d in old(store.blobs) && d !in lookup.listing ==> deletable(d)))
    {
      stop := None;
      if isLeader {
        return true, stop;
      }
      match lookup
      case Unresolved => return false, stop;
      case NoLeader => return true, stop;
      case Leader(snapshot, listing, complete, answer) =>
        if snapshot.None? || local.None? {
          return false, stop;
        }
        var last, fetched, deleted;
        ok, last, fetched, deleted := store.MergeBlobs(local.value, listing, complete, answer, deletable);
        stop := last;
        if !ok {
          return;
        }
        if !renamed {
          return false, stop;
        }
        committed := snapshot;
        return true, stop;
    }

    /** Promotion uses up the committed snapshot whether or not the swap works;
        without one, or when the swap fails, the local data stays. */
    method Promote(swapped: bool) returns (ok: bool)
      modifies this
      ensures isLeader && committed == None
      ensures ok <==> old(committed).None? || swapped
      ensures database == if old(committed).Some? && swapped then old(committed).value.refs else old(database)
    {
      isLeader := true;
      var taken := committed;
      committed := None;
      if taken.None? {
        return true;
      }
      if !swapped {
        return false;
      }
      database := taken.value.refs;
      return true;
    }

    method Demote()
      modifies this`isLeader
      ensures !isLeader
    {
      isLeader := false;
    }
  }
}
