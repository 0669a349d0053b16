/** One migration run as it proceeds on the target, copies one at a time: the
    stages, the counters and the report. What the stores answer is a parameter. */
module MigratorObject {
  import opened Wrappers
  import opened BlobPages
  import opened Migration

  /** A plan that passed: names, digests to copy in order, digests the source lacks. */
  datatype Plan = Plan(names: Names, missing: seq<Digest>, sourceMissing: set<Digest>, version: nat)

  predicate ValidPlan(p: Plan) {
    && (forall i, j :: 0 <= i < j < |p.missing| ==> p.missing[i] != p.missing[j])
    && (forall i :: 0 <= i < |p.missing| ==> p.missing[i] in p.names && p.missing[i] !in p.sourceMissing)
  }

  /** What a request for one blob meets: its bytes if the source opens it,
      whether the target takes it, whether the lease is held then. */
  datatype Copying = Copying(bytes: Option<Body>, stored: bool, held: bool)

  /** What happens to the metadata upload: whether the request took effect,
      whether its acknowledgement and a size check came back well. */
  datatype Uploading = Uploading(reached: bool, confirmed: bool)

  /** What postflight finds, and how many removals work before one fails. */
  datatype Checking = AllGood | Bad(blobs: seq<Digest>, removals: nat)

  function Listed(ds: seq<Digest>): set<Digest> {
    set d | d in ds
  }

  /** The blobs the clean-up removes before it fails or ends. */
  function Gone(check: Checking): set<Digest>
    requires check.Bad?
  {
    Listed(check.blobs[..if check.removals < |check.blobs| then check.removals else |check.blobs|])
  }

  /** What is left when `gone` is removed from a grown, complete target. */
  lemma CleanedUp(before: Blobs, copies: Blobs, gone: set<Digest>, needed: set<Digest>)
    requires Grown(before, copies) && needed <= copies.Keys
    ensures gone !! (copies - gone).Keys && Grown(before - gone, copies - gone)
    ensures needed <= (copies - gone).Keys <==> gone !! needed
  {
    if needed <= (copies - gone).Keys {
      assert forall d :: d in needed ==> d in copies - gone && d !in gone;
    }
  }

  datatype RunStage = AtCopy | AtVerify | AtUpload | AtPostflight | Done

  /** Copying `d` stores and counts it. */
  predicate Lands(d: Digest, c: Copying) {
    c.held && c.stored && c.bytes.Some? && c.bytes.value.hash == d
  }

  predicate AllLand(missing: seq<Digest>, answer: Digest -> Copying) {
    forall i :: 0 <= i < |missing| ==> Lands(missing[i], answer(missing[i]))
  }

  /** Every needed blob is in the target once the planned copies landed, and readable. */
  predicate Verifiable(plan: Plan, before: Blobs, readable: Digest -> bool) {
    forall d :: d in plan.names && d !in plan.sourceMissing ==> (d in before || d in plan.missing) && readable(d)
  }

  predicate Uploads(opts: Options, before: Option<Meta>, up: Uploading) {
    up.reached && (opts.overwrite || before.None?) && up.confirmed
  }

  /** Where a run ends: at the first stage that does not pass. */
  function FinalStage(plan: Plan, opts: Options, before: Blobs, meta: Option<Meta>, answer: Digest -> Copying,
                      readable: Digest -> bool, versionNow: nat, heldAtEnd: bool, up: Uploading, check: Checking): RunStage
  {
    if opts.dryRun then Done
    else if !AllLand(plan.missing, answer) then AtCopy
    else if !Verifiable(plan, before, readable) || versionNow != plan.version || !heldAtEnd then AtVerify
    else if !Uploads(opts, meta, up) then AtUpload
    else if check.Bad? then AtPostflight
    else Done
  }

  /** The target after the first `n` copies. */
  function After(before: Blobs, missing: seq<Digest>, answer: Digest -> Copying, n: nat): Blobs
    requires n <= |missing|
  {
    if n == 0 then before else OneMore(After(before, missing, answer, n - 1), answer(missing[n - 1]))
  }

  /** What a request for one blob leaves in the target. */
  function OneMore(blobs: Blobs, c: Copying): Blobs {
    if c.held && c.stored && c.bytes.Some? then Put(blobs, c.bytes.value) else blobs
  }

  lemma {:induction false} AfterHolds(before: Blobs, missing: seq<Digest>, answer: Digest -> Copying, n: nat)
    requires n <= |missing| && forall i :: 0 <= i < n ==> Lands(missing[i], answer(missing[i]))
    ensures After(before, missing, answer, n).Keys == before.Keys + Listed(missing[..n])
  {
    if n > 0 {
      AfterHolds(before, missing, answer, n - 1);
      assert missing[..n] == missing[..n - 1] + [missing[n - 1]];
    } else {
      assert missing[..0] == [];
    }
  }

  class Counters {
    var copied: nat
    var bytes: nat

    constructor ()
      ensures copied == bytes == 0
    {
      copied, bytes := 0, 0;
    }

    method Record(n: nat)
      modifies this
      ensures copied == old(copied) + 1 && bytes == old(bytes) + n
    {
      copied := copied + 1;
      bytes := bytes + n;
    }
  }

  class Target {
    var blobs: Blobs
    var meta: Option<Meta>

    constructor (blobs: Blobs, meta: Option<Meta>)
      ensures this.blobs == blobs && this.meta == meta
    {
      this.blobs, this.meta := blobs, meta;
    }

    /** Copies one blob; bytes that hash to something else are stored under that
        hash and reported as an error. */
    method CopyBlob(d: Digest, c: Copying) returns (r: Result<nat, string>)
      modifies this`blobs
      ensures r.Success? <==> c.stored && c.bytes.Some? && c.bytes.value.hash == d
      ensures r.Success? ==> r.value == c.bytes.value.size && d in blobs
      ensures blobs == if c.stored && c.bytes.Some? then Put(old(blobs), c.bytes.value) else old(blobs)
    {
      if c.bytes.None? {
        return Failure("open");
      }
      if !c.stored {
        return Failure("put");
      }
      blobs := Put(blobs, c.bytes.value);
      if c.bytes.value.hash != d {
        return Failure("digest mismatch");
      }
      return Success(c.bytes.value.size);
    }

    /** Copies until done or the first error. `done` is what was counted. */
    method CopyAll(missing: seq<Digest>, answer: Digest -> Copying, counters: Counters)
      returns (ok: bool, ghost done: seq<Body>)
      requires counters.copied == counters.bytes == 0
      modifies this`blobs, counters
      ensures Grown(old(blobs), blobs)
      ensures ok <==> AllLand(missing, answer)
      ensures |done| <= |missing| && (ok <==> |done| == |missing|)
      ensures blobs == After(old(blobs), missing, answer, if ok then |missing| else |done| + 1)
      ensures forall i :: 0 <= i < |done| ==> done[i].hash == missing[i] && missing[i] in blobs && Some(done[i]) == answer(missing[i]).bytes
      ensures counters.copied == |done| && counters.bytes == Sum(done)
    {
      done := [];
      for i := 0 to |missing|
        invariant Grown(old(blobs), blobs)
        invariant blobs == After(old(blobs), missing, answer, i)
        invariant |done| == i && counters.copied == i && counters.bytes == Sum(done)
        invariant forall k :: 0 <= k < i ==> Lands(missing[k], answer(missing[k])) && done[k].hash == missing[k] && missing[k] in blobs
        invariant forall k :: 0 <= k < i ==> Some(done[k]) == answer(missing[k]).bytes
      {
        var d := missing[i];
        var c := answer(d);
        if !c.held {
          return false, done;
        }
        var r := CopyBlob(d, c);
        if r.Failure? {
          return false, done;
        }
        counters.Record(r.value);
        done := done + [c.bytes.value];
        assert done[..i] + [c.bytes.value] == done;
      }
      ok := true;
    }

    /** Every name that is not allowed to be missing must be there; a failed
        look-up counts as missing. */
    method VerifyTarget(names: seq<Digest>, allowed: set<Digest>, readable: Digest -> bool) returns (ok: bool)
      ensures ok <==> forall d :: d in names && d !in allowed ==> d in blobs && readable(d)
    {
      var missing: seq<Digest> := [];
      for i := 0 to |names|
        invariant missing == [] <==> forall k :: 0 <= k < i && names[k] !in allowed ==> names[k] in blobs && readable(names[k])
      {
        var d := names[i];
        if d !in allowed && !(d in blobs && readable(d)) {
          missing := missing + [d];
        }
      }
      ok := missing == [];
    }

    /** A conditional put: refused over existing metadata unless overwriting. */
    method UploadMeta(staged: Meta, overwrite: bool, up: Uploading) returns (ok: bool)
      modifies this`meta
      ensures meta == if up.reached && (overwrite || old(meta).None?) then Some(staged) else old(meta)
      ensures ok <==> up.reached && (overwrite || old(meta).None?) && up.confirmed
    {
      if !up.reached || (!overwrite && meta.Some?) {
        return false;
      }
      meta := Some(staged);
      ok := up.confirmed;
    }

    /** Removes bad blobs, then the metadata; stops at the first failure. */
    method RemoveBad(bad: seq<Digest>, removals: nat) returns (ok: bool)
      modifies this
      ensures ok <==> removals > |bad|
      ensures meta == if ok then None else old(meta)
      ensures var n := if removals < |bad| then removals else |bad|;
              blobs == old(blobs) - Listed(bad[..n])
    {
      for i := 0 to |bad|
        invariant meta == old(meta) && i <= removals
        invariant blobs == old(blobs) - Listed(bad[..i])
      {
        if i == removals {
          return false;
        }
        blobs := blobs - {bad[i]};
        assert bad[..i + 1] == bad[..i] + [bad[i]];
      }
      if removals == |bad| {
        return false;
      }
      meta := None;
      ok := true;
    }

    /** The stages before the upload: copy, verify, and look again whether the
        source is unchanged and the lease still held. */
    method Prepare(plan: Plan, order: seq<Digest>, answer: Digest -> Copying, readable: Digest -> bool, versionNow: nat, heldAtEnd: bool)
      returns (stage: RunStage, copied: nat, bytes: nat)
      requires ValidPlan(plan) && (forall d :: d in order <==> d in plan.names)
      modifies this`blobs
      ensures stage == if !AllLand(plan.missing, answer) then AtCopy
                       else if !Verifiable(plan, old(blobs), readable) || versionNow != plan.version || !heldAtEnd then AtVerify
                       else Done
      ensures Grown(old(blobs), blobs)
      ensures stage == Done ==>
                && plan.names.Keys - plan.sourceMissing <= blobs.Keys
                && copied == |plan.missing| && bytes == Sum(Copied(plan.missing, answer))
    {
      var counters := new Counters();
      var landed, done := CopyAll(plan.missing, answer, counters);
      copied, bytes := counters.copied, counters.bytes;
      if !landed {
        return AtCopy, copied, bytes;
      }
      CopiedIs(plan.missing, answer, done);
      AfterHolds(old(blobs), plan.missing, answer, |plan.missing|);
      assert plan.missing[..|plan.missing|] == plan.missing;
      var verified := VerifyTarget(order, plan.sourceMissing, readable);
      if !verified || versionNow != plan.version || !heldAtEnd {
        return AtVerify, copied, bytes;
      }
      stage := Done;
    }

    /** One run. The metadata changes only after every needed blob is in the
        target; a run that stops in the copy or verify stage leaves it alone;
        success means complete metadata and a report that adds up. After a failed
        postflight the metadata is gone exactly if every removal worked, and what
        is left is complete exactly if it is gone or no needed blob is. */
    method Run(plan: Plan, order: seq<Digest>, opts: Options, answer: Digest -> Copying, readable: Digest -> bool,
               versionNow: nat, heldAtEnd: bool, up: Uploading, check: Checking)
      returns (r: Result<Report, string>, stage: RunStage)
      requires ValidPlan(plan) && (forall d :: d in order <==> d in plan.names)
      modifies this
      ensures stage == FinalStage(plan, opts, old(blobs), old(meta), answer, readable, versionNow, heldAtEnd, up, check)
      ensures stage == Done <==> r.Success?
      ensures meta != old(meta) || (r.Success? && !opts.dryRun) ==>
                versionNow == plan.version && heldAtEnd && Verifiable(plan, old(blobs), readable)
      ensures opts.dryRun ==> r.Success? && blobs == old(blobs) && meta == old(meta)
      ensures stage == AtCopy || stage == AtVerify ==> meta == old(meta)
      ensures stage != AtPostflight ==> Grown(old(blobs), blobs)
      ensures meta != old(meta) && stage != AtPostflight ==>
                && meta == Some(Migrated(plan.names.Keys, plan.sourceMissing))
                && plan.names.Keys - plan.sourceMissing <= blobs.Keys
      ensures r.Success? && !opts.dryRun ==>
                && plan.names.Keys - plan.sourceMissing <= blobs.Keys
                && meta == Some(Migrated(plan.names.Keys, plan.sourceMissing))
                && AllLand(plan.missing, answer)
                && r.value.bytes == Sum(Copied(plan.missing, answer))
      ensures r.Success? ==> r.value.copied == |plan.missing| && r.value.copied + r.value.skipped == r.value.required == |plan.names|
      ensures r.Success? ==> r.value.metaCopied == !opts.dryRun && r.value.dryRun == opts.dryRun
      ensures r.Success? && opts.dryRun ==> r.value.bytes == SumRecorded(plan.names, plan.missing)
      ensures stage == AtPostflight ==>
                && check.Bad? && r.Failure?
                && meta == (if check.removals > |check.blobs| then None
                            else Some(Migrated(plan.names.Keys, plan.sourceMissing)))
                && Gone(check) !! blobs.Keys && Grown(old(blobs) - Gone(check), blobs)
                && (meta.None? || plan.names.Keys - plan.sourceMissing <= blobs.Keys <==>
                    check.removals > |check.blobs| || Gone(check) !! plan.names.Keys - plan.sourceMissing)
    {
      var required, skipped := |plan.names|, |plan.names| - |plan.missing|;
      if opts.dryRun {
        var bytes := SumRecorded(plan.names, plan.missing);
        return Success(Report(required, |plan.missing|, skipped, bytes, false, true)), Done;
      }
      var prepared, copied, bytes := Prepare(plan, order, answer, readable, versionNow, heldAtEnd);
      if prepared != Done {
        return Failure(if prepared == AtCopy then "copy" else "verify"), prepared;
      }
      hide AllLand, Verifiable, Grown, ValidPlan, Sum, Copied;
      var uploaded := UploadMeta(Migrated(plan.names.Keys, plan.sourceMissing), opts.overwrite, up);
      if !uploaded {
        return Failure("upload"), AtUpload;
      }
      if check.Bad? {
        ghost var copies := blobs;
        var cleaned := RemoveBad(check.blobs, check.removals);
        CleanedUp(old(blobs), copies, Gone(check), plan.names.Keys - plan.sourceMissing);
        return Failure(if cleaned then "postflight" else "clean-up failed"), AtPostflight;
      }
      return Success(Report(required, copied, skipped, bytes, true, false)), Done;
    }
  }

  /** The bytes copied, if every copy lands. */
  function Copied(missing: seq<Digest>, answer: Digest -> Copying): (s: seq<Body>)
    ensures |s| == |missing|
  {
    seq(|missing|, i requires 0 <= i < |missing| =>
      match answer(missing[i]).bytes case Some(b) => b case None => Body(missing[i], 0))
  }

  lemma CopiedIs(missing: seq<Digest>, answer: Digest -> Copying, done: seq<Body>)
    requires |done| == |missing|
    requires forall i :: 0 <= i < |done| ==> Some(done[i]) == answer(missing[i]).bytes
    ensures done == Copied(missing, answer)
  {
  }
}
