/** The streaming merge that makes the standby's blob store mirror the listing. */
module BlobMerge {
  import opened Wrappers
  import opened BlobPages

  datatype MergeStep = Fetch(d: Digest) | Delete(d: Digest) | Skip | Done

  /** One step of the ordered merge of the next local and remote digests. */
  function Decide(l: Option<Digest>, r: Option<Digest>): (m: MergeStep) {
    match (l, r)
    case (None, None) => Done
    case (None, Some(rv)) => Fetch(rv)
    case (Some(lv), None) => Delete(lv)
    case (Some(lv), Some(rv)) => if rv < lv then Fetch(rv) else if lv < rv then Delete(lv) else Skip
  }

  /** The leader's answer to a blob request: a body hashing to `hash`, 404, or a
      failed request. `stuck` says that the standby fails to remove the body
      again, should it be the wrong one. */
  datatype Answer = Body(hash: Digest, stuck: bool) | NotFound | Broken

  /** The answer is the blob asked for. */
  predicate Serves(a: Answer, d: Digest) {
    a.Body? && a.hash == d
  }

  function ToSet(s: seq<Digest>): set<Digest> {
    set d | d in s
  }

  /** The mirror a successful merge produces: everything listed, except what
      was neither present nor served. */
  function Mirrored(local: set<Digest>, remote: seq<Digest>, answer: Digest -> Answer): set<Digest> {
    set d | d in remote && (d in local || Serves(answer(d), d))
  }

  // ----- where a merge stops, and what it leaves -----

  /** Digest `d` makes the merge fail when it is reached: it is to be fetched and
      not served, or to be deleted and cannot be. */
  predicate Fails(d: Digest, before: set<Digest>, remote: seq<Digest>, answer: Digest -> Answer, deletable: Digest -> bool) {
    || (d in remote && d !in before && answer(d) != NotFound && !Serves(answer(d), d))
    || (d in before && d !in remote && !deletable(d))
  }

  /** The listing reaches `d`: it is complete, or goes at least that far. */
  predicate Reaches(remote: seq<Digest>, complete: bool, d: Digest) {
    complete || exists i :: 0 <= i < |remote| && d <= remote[i]
  }

  /** Digest `d` is dealt with before the merge stops at `stop`, or at the end. */
  predicate Past(d: Digest, stop: Option<Digest>, remote: seq<Digest>, complete: bool) {
    match stop
    case Some(x) => d < x
    case None => Reaches(remote, complete, d)
  }

  /** The merge stops at the first digest that fails, if the listing reaches one. */
  ghost predicate StopsAt(stop: Option<Digest>, before: set<Digest>, remote: seq<Digest>, complete: bool,
                          answer: Digest -> Answer, deletable: Digest -> bool)
  {
    && (forall d :: Fails(d, before, remote, answer, deletable) ==> !Past(d, stop, remote, complete))
    && (stop.Some? ==> Fails(stop.value, before, remote, answer, deletable) && Reaches(remote, complete, stop.value))
  }

  /** The store after an attempt to fetch `d`. */
  function Fetched(blobs: set<Digest>, d: Digest, answer: Answer): set<Digest> {
    match answer
    case NotFound => blobs
    case Broken => blobs
    case Body(hash, stuck) => if hash == d then blobs + {d} else if stuck then blobs + {hash} else blobs - {hash}
  }

  /** What was there, without the unlisted digests dealt with, and with the listed
      ones dealt with and served. */
  function Dealt(before: set<Digest>, remote: seq<Digest>, complete: bool, answer: Digest -> Answer, stop: Option<Digest>): set<Digest> {
    (set d | d in before && (d in remote || !Past(d, stop, remote, complete)))
    + (set d | d in remote && Past(d, stop, remote, complete) && Serves(answer(d), d))
  }

  /** The store a merge leaves on any exit: a fetch that fails may still add or
      take away the one body it received. */
  function Merged(before: set<Digest>, remote: seq<Digest>, complete: bool, answer: Digest -> Answer, stop: Option<Digest>): set<Digest> {
    var dealt := Dealt(before, remote, complete, answer, stop);
    match stop
    case None => dealt
    case Some(x) => if x in remote then Fetched(dealt, x, answer(x)) else dealt
  }

  /** A merge that reaches the end of a complete listing leaves the mirror. */
  lemma MergedIsMirrored(before: set<Digest>, remote: seq<Digest>, answer: Digest -> Answer)
    ensures Merged(before, remote, true, answer, None) == Mirrored(before, remote, answer)
  {
  }

  /** Wherever a merge stops, a digest both local and listed is still there,
      unless the fetch it stopped at received that very blob and removed it. */
  lemma SharedSurvives(before: set<Digest>, remote: seq<Digest>, complete: bool, answer: Digest -> Answer,
                       stop: Option<Digest>, d: Digest)
    requires d in before && d in remote && (stop.Some? && stop.value in remote ==> stop.value !in before)
    ensures d in Merged(before, remote, complete, answer, stop) <==>
            !(stop.Some? && stop.value in remote && answer(stop.value) == Body(d, false))
  {
  }

  /** Nothing beyond the stop is touched, with the same exception. */
  lemma BeyondIsUntouched(before: set<Digest>, remote: seq<Digest>, complete: bool, answer: Digest -> Answer,
                          stop: Option<Digest>, d: Digest)
    requires !Past(d, stop, remote, complete)
    requires stop.Some? && stop.value in remote && answer(stop.value).Body? ==> answer(stop.value).hash != d
    ensures d in Merged(before, remote, complete, answer, stop) <==> d in before
  {
  }

  lemma AppendIncreasing(s: seq<Digest>, d: Digest)
    requires Increasing(s) && forall x :: x in s ==> x < d
    ensures Increasing(s + [d])
  {
    assert forall i :: 0 <= i < |s| ==> s[i] in s;
  }

  // ----- the loop invariant -----

  /** Everything before `i` and `j` is dealt with: the cursors moved past each
      other's digests, the store is the mirror so far plus the untouched rest. */
  ghost predicate MergeInv(before: set<Digest>, local: seq<Digest>, remote: seq<Digest>, answer: Digest -> Answer,
                           i: nat, j: nat, blobs: set<Digest>)
  {
    && i <= |local| && j <= |remote|
    && (forall a, b :: 0 <= a < i && j <= b < |remote| ==> local[a] < remote[b])
    && (forall a, b :: i <= a < |local| && 0 <= b < j ==> remote[b] < local[a])
    && blobs == Mirrored(before, remote[..j], answer) + ToSet(local[i..])
    && (forall d :: d in remote[..j] && d !in before ==> answer(d) == NotFound || Serves(answer(d), d))
  }

  /** What was fetched and deleted so far, in order. */
  ghost predicate LogInv(before: set<Digest>, local: seq<Digest>, remote: seq<Digest>, i: nat, j: nat,
                         fetched: seq<Digest>, deleted: seq<Digest>)
    requires i <= |local| && j <= |remote|
  {
    && Increasing(fetched) && (forall d :: d in fetched <==> d in remote[..j] && d !in before)
    && Increasing(deleted) && (forall d :: d in deleted <==> d in local[..i] && d !in remote[..j])
  }

  lemma FetchKeeps(before: set<Digest>, local: seq<Digest>, remote: seq<Digest>, answer: Digest -> Answer,
                   i: nat, j: nat, blobs: set<Digest>, fetched: seq<Digest>, deleted: seq<Digest>)
    requires Increasing(local) && Increasing(remote) && before == ToSet(local)
    requires MergeInv(before, local, remote, answer, i, j, blobs) && LogInv(before, local, remote, i, j, fetched, deleted)
    requires j < |remote| && (i < |local| ==> remote[j] < local[i])
    ensures remote[j] !in before
    ensures answer(remote[j]) == NotFound || Serves(answer(remote[j]), remote[j]) ==>
              && MergeInv(before, local, remote, answer, i, j + 1,
                          if answer(remote[j]) == NotFound then blobs else blobs + {remote[j]})
              && LogInv(before, local, remote, i, j + 1, fetched + [remote[j]], deleted)
  {
    FetchKeepsStore(before, local, remote, answer, i, j, blobs);
    FetchKeepsLog(before, local, remote, i, j, fetched, deleted);
    hide MergeInv, LogInv;
  }

  lemma FetchKeepsStore(before: set<Digest>, local: seq<Digest>, remote: seq<Digest>, answer: Digest -> Answer,
                        i: nat, j: nat, blobs: set<Digest>)
    requires Increasing(local) && Increasing(remote) && before == ToSet(local)
    requires MergeInv(before, local, remote, answer, i, j, blobs)
    requires j < |remote| && (i < |local| ==> remote[j] < local[i])
    ensures remote[j] !in before
    ensures answer(remote[j]) == NotFound || Serves(answer(remote[j]), remote[j]) ==>
              MergeInv(before, local, remote, answer, i, j + 1,
                       if answer(remote[j]) == NotFound then blobs else blobs + {remote[j]})
  {
    var d := remote[j];
    assert remote[..j + 1] == remote[..j] + [d];
  }

  lemma FetchKeepsLog(before: set<Digest>, local: seq<Digest>, remote: seq<Digest>, i: nat, j: nat,
                      fetched: seq<Digest>, deleted: seq<Digest>)
    requires Increasing(remote) && i <= |local| && j < |remote| && remote[j] !in before
    requires before == ToSet(local) && LogInv(before, local, remote, i, j, fetched, deleted)
    ensures LogInv(before, local, remote, i, j + 1, fetched + [remote[j]], deleted)
  {
    var d := remote[j];
    assert remote[..j + 1] == remote[..j] + [d];
    assert forall x :: x in fetched ==> x in remote[..j] && x < d;
    AppendIncreasing(fetched, d);
  }

  lemma DeleteKeeps(before: set<Digest>, local: seq<Digest>, remote: seq<Digest>, answer: Digest -> Answer,
                    i: nat, j: nat, blobs: set<Digest>, fetched: seq<Digest>, deleted: seq<Digest>)
    requires Increasing(local) && Increasing(remote) && before == ToSet(local)
    requires MergeInv(before, local, remote, answer, i, j, blobs) && LogInv(before, local, remote, i, j, fetched, deleted)
    requires i < |local| && (j < |remote| ==> local[i] < remote[j])
    ensures local[i] !in remote
    ensures MergeInv(before, local, remote, answer, i + 1, j, blobs - {local[i]})
    ensures LogInv(before, local, remote, i + 1, j, fetched, deleted + [local[i]])
  {
    var d := local[i];
    assert local[..i + 1] == local[..i] + [d] && local[i..] == [d] + local[i + 1..];
    assert d !in local[i + 1..] && d !in remote[..j];
    assert forall x :: x in deleted ==> x in local[..i] && x < d;
    AppendIncreasing(deleted, d);
  }

  lemma SkipKeeps(before: set<Digest>, local: seq<Digest>, remote: seq<Digest>, answer: Digest -> Answer,
                  i: nat, j: nat, blobs: set<Digest>, fetched: seq<Digest>, deleted: seq<Digest>)
    requires Increasing(local) && Increasing(remote) && before == ToSet(local)
    requires MergeInv(before, local, remote, answer, i, j, blobs) && LogInv(before, local, remote, i, j, fetched, deleted)
    requires i < |local| && j < |remote| && local[i] == remote[j]
    ensures MergeInv(before, local, remote, answer, i + 1, j + 1, blobs)
    ensures LogInv(before, local, remote, i + 1, j + 1, fetched, deleted)
  {
    assert local[..i + 1] == local[..i] + [local[i]] && local[i..] == [local[i]] + local[i + 1..];
    assert remote[..j + 1] == remote[..j] + [remote[j]];
  }

  // ----- from the invariant to the outcome -----

  /** What the merge took from the local side, the listing reaches. */
  predicate Covers(local: seq<Digest>, remote: seq<Digest>, complete: bool, i: nat)
    requires i <= |local|
  {
    forall a :: 0 <= a < i ==> Reaches(remote, complete, local[a])
  }

  /** Up to here nothing failed, and here a fetch may. */
  lemma StopAtFetch(before: set<Digest>, local: seq<Digest>, remote: seq<Digest>, complete: bool, answer: Digest -> Answer,
                    deletable: Digest -> bool, i: nat, j: nat, blobs: set<Digest>, fetched: seq<Digest>, deleted: seq<Digest>)
    requires Increasing(local) && Increasing(remote) && before == ToSet(local)
    requires MergeInv(before, local, remote, answer, i, j, blobs) && LogInv(before, local, remote, i, j, fetched, deleted)
    requires (forall d :: d in deleted ==> deletable(d)) && j < |remote| && (i < |local| ==> remote[j] < local[i])
    ensures Split(before, remote, complete, Some(remote[j]), blobs, answer, fetched, deleted)
    ensures Fails(remote[j], before, remote, answer, deletable) ==>
              StopsAt(Some(remote[j]), before, remote, complete, answer, deletable)
  {
    var x := remote[j];
    forall d | d < x
      ensures d in remote <==> d in remote[..j]
      ensures d in local <==> d in local[..i]
    {
      BelowIsPrefix(remote, j, d);
      if i < |local| {
        BelowIsPrefix(local, i, d);
      } else {
        assert local[..i] == local;
      }
    }
    SplitsAt(before, local, remote, complete, answer, i, j, blobs, fetched, deleted, x);
  }

  lemma StopAtDelete(before: set<Digest>, local: seq<Digest>, remote: seq<Digest>, complete: bool, answer: Digest -> Answer,
                     deletable: Digest -> bool, i: nat, j: nat, blobs: set<Digest>, fetched: seq<Digest>, deleted: seq<Digest>)
    requires Increasing(local) && Increasing(remote) && before == ToSet(local)
    requires MergeInv(before, local, remote, answer, i, j, blobs) && LogInv(before, local, remote, i, j, fetched, deleted)
    requires (forall d :: d in deleted ==> deletable(d)) && i < |local| && (j < |remote| ==> local[i] < remote[j])
    requires (j < |remote| || complete) && !deletable(local[i])
    ensures Split(before, remote, complete, Some(local[i]), blobs, answer, fetched, deleted)
    ensures StopsAt(Some(local[i]), before, remote, complete, answer, deletable) && local[i] !in remote
  {
    var x := local[i];
    forall d | d < x
      ensures d in remote <==> d in remote[..j]
      ensures d in local <==> d in local[..i]
    {
      BelowIsPrefix(local, i, d);
      if j < |remote| {
        BelowIsPrefix(remote, j, d);
      } else {
        assert remote[..j] == remote;
      }
    }
    SplitsAt(before, local, remote, complete, answer, i, j, blobs, fetched, deleted, x);
  }

  lemma BelowIsPrefix(s: seq<Digest>, k: nat, d: Digest)
    requires Increasing(s) && k < |s| && d < s[k]
    ensures d in s <==> d in s[..k]
  {
    if d in s {
      var a :| 0 <= a < |s| && s[a] == d;
      assert a < k && s[..k][a] == d;
    }
  }

  /** The store and the logs are those of a merge that dealt with all before `stop`. */
  ghost predicate Split(before: set<Digest>, remote: seq<Digest>, complete: bool, stop: Option<Digest>, blobs: set<Digest>,
                        answer: Digest -> Answer, fetched: seq<Digest>, deleted: seq<Digest>)
  {
    && blobs == Dealt(before, remote, complete, answer, stop)
    && (forall d :: d in fetched <==> d in remote && d !in before && Past(d, stop, remote, complete))
    && (forall d :: d in deleted <==> d in before && d !in remote && Past(d, stop, remote, complete))
  }

  lemma SplitsAt(before: set<Digest>, local: seq<Digest>, remote: seq<Digest>, complete: bool, answer: Digest -> Answer,
                 i: nat, j: nat, blobs: set<Digest>, fetched: seq<Digest>, deleted: seq<Digest>, x: Digest)
    requires Increasing(local) && before == ToSet(local)
    requires MergeInv(before, local, remote, answer, i, j, blobs) && LogInv(before, local, remote, i, j, fetched, deleted)
    requires forall d :: d < x ==> (d in remote <==> d in remote[..j]) && (d in local <==> d in local[..i])
    requires (forall d :: d in remote[..j] ==> d < x) && (forall d :: d in local[..i] ==> d < x)
    ensures Split(before, remote, complete, Some(x), blobs, answer, fetched, deleted)
  {
    assert local == local[..i] + local[i..];
    assert forall d :: d in local[i..] ==> d !in local[..i];
    assert forall d :: d in blobs <==> d in Dealt(before, remote, complete, answer, Some(x));
  }

  /** The loop ran out of digests, or out of a listing that broke off. */
  lemma EndsHere(before: set<Digest>, local: seq<Digest>, remote: seq<Digest>, complete: bool, answer: Digest -> Answer,
                 deletable: Digest -> bool, i: nat, blobs: set<Digest>, fetched: seq<Digest>, deleted: seq<Digest>)
    requires Increasing(local) && Increasing(remote) && before == ToSet(local) && i <= |local| && (complete ==> i == |local|)
    requires MergeInv(before, local, remote, answer, i, |remote|, blobs)
    requires LogInv(before, local, remote, i, |remote|, fetched, deleted)
    requires (forall d :: d in deleted ==> deletable(d)) && Covers(local, remote, complete, i)
    ensures Split(before, remote, complete, None, blobs, answer, fetched, deleted)
    ensures StopsAt(None, before, remote, complete, answer, deletable)
  {
    assert remote[..|remote|] == remote && local == local[..i] + local[i..];
    forall d | d in local
      ensures Past(d, None, remote, complete) <==> d in local[..i]
    {
      if d in local[..i] {
        var a :| 0 <= a < i && local[..i][a] == d;
        assert local[a] == d;
      } else if !complete {
        var a :| i <= a < |local| && local[a] == d;
      }
    }
    assert forall d :: d in remote ==> Past(d, None, remote, complete);
  }

  class BlobStore {
    var blobs: set<Digest>

    constructor (blobs: set<Digest>)
      ensures this.blobs == blobs
    {
      this.blobs := blobs;
    }

    /** Downloads one blob: stored under the hash of its body, and taken back
        out when that is not the digest asked for. */
    method FetchBlob(d: Digest, answer: Answer) returns (ok: bool)
      modifies this
      ensures ok <==> answer == NotFound || Serves(answer, d)
      ensures blobs == Fetched(old(blobs), d, answer)
    {
      match answer
      case NotFound => return true;
      case Broken => return false;
      case Body(got, stuck) =>
        blobs := blobs + {got};
        if got != d {
          if !stuck {
            blobs := blobs - {got};
          }
          return false;
        }
        return true;
    }

    /** Merges the sorted local digests with the sorted listing, of which `remote`
        is all or, if a page request fails, what came before the failure. It stops
        at the first digest that fails; on every exit the store is what the merge
        up to there makes of it, and after a complete merge the exact mirror. Each
        digest is fetched at most once and only if listed and absent, and deleted
        only if present and not listed. */
    method MergeBlobs(local: seq<Digest>, remote: seq<Digest>, complete: bool, answer: Digest -> Answer, deletable: Digest -> bool)
      returns (ok: bool, stop: Option<Digest>, fetched: seq<Digest>, deleted: seq<Digest>)
      requires Increasing(local) && Increasing(remote) && blobs == ToSet(local)
      modifies this
      ensures StopsAt(stop, old(blobs), remote, complete, answer, deletable)
      ensures ok <==> stop.None? && complete
      ensures blobs == Merged(old(blobs), remote, complete, answer, stop)
      ensures ok ==> blobs == Mirrored(old(blobs), remote, answer)
      ensures ok <==> && complete
                      && (forall d :: d in remote && d !in old(blobs) ==> answer(d) == NotFound || Serves(answer(d), d))
                      && (forall d :: d in old(blobs) && d !in remote ==> deletable(d))
      ensures Increasing(fetched) && Increasing(deleted)
      ensures forall d :: d in fetched <==> d in remote && d !in old(blobs) && Past(d, stop, remote, complete)
      ensures forall d :: d in deleted <==> d in old(blobs) && d !in remote && Past(d, stop, remote, complete)
    {
      var i, j := 0, 0;
      stop, fetched, deleted := None, [], [];
      while i < |local| || j < |remote|
        invariant 0 <= i <= |local| && 0 <= j <= |remote|
        invariant MergeInv(old(blobs), local, remote, answer, i, j, blobs)
        invariant LogInv(old(blobs), local, remote, i, j, fetched, deleted)
        invariant forall d :: d in deleted ==> deletable(d)
        invariant Covers(local, remote, complete, i)
        decreases |local| - i + |remote| - j
      {
        if j == |remote| && !complete {
          break;
        }
        var l := if i < |local| then Some(local[i]) else None;
        var r := if j < |remote| then Some(remote[j]) else None;
        match Decide(l, r)
        case Fetch(d) =>
          FetchKeeps(old(blobs), local, remote, answer, i, j, blobs, fetched, deleted);
          StopAtFetch(old(blobs), local, remote, complete, answer, deletable, i, j, blobs, fetched, deleted);
          ok := FetchBlob(d, answer(d));
          if !ok {
            stop := Some(d);
            return;
          }
          fetched := fetched + [d];
          j := j + 1;
        case Delete(d) =>
          DeleteKeeps(old(blobs), local, remote, answer, i, j, blobs, fetched, deleted);
          if !deletable(d) {
            StopAtDelete(old(blobs), local, remote, complete, answer, deletable, i, j, blobs, fetched, deleted);
            return false, Some(d), fetched, deleted;
          }
          blobs := blobs - {d};
          deleted := deleted + [d];
          i := i + 1;
        case Skip =>
          SkipKeeps(old(blobs), local, remote, answer, i, j, blobs, fetched, deleted);
          i := i + 1;
          j := j + 1;
      }
      EndsHere(old(blobs), local, remote, complete, answer, deletable, i, blobs, fetched, deleted);
      if complete {
        MergedIsMirrored(old(blobs), remote, answer);
      }
      ok := complete;
    }
  }
}
