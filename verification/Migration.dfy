/** Copying an object-storage deployment to another bucket: plan, copy the
    missing blobs concurrently, verify, upload the metadata last, check again
    and clean up. Any step may fail, and a failed run may be started again,
    while writers may still change the source and others add to the target. */
module Migration {
  import opened Wrappers
  import opened BlobPages

  /** The bytes of a blob, identified by their hash. */
  datatype Body = Body(hash: Digest, size: nat)

  type Blobs = map<Digest, Body>

  /** The blobs a metadata snapshot names, with their recorded sizes. */
  type Names = map<Digest, Option<int>>

  /** A target metadata object: somebody else's, or a migrated one with the
      blobs it names and those allowed to be missing. */
  datatype Meta = Foreign | Migrated(names: set<Digest>, allowed: set<Digest>)

  datatype Options = Options(concurrency: nat, dryRun: bool, overwrite: bool, allowMissing: bool)

  datatype Report = Report(required: nat, copied: nat, skipped: int, bytes: int, metaCopied: bool, dryRun: bool)

  datatype Stage =
    | ProbeSource(left: set<Digest>)
    | ProbeTarget(left: set<Digest>)
    | Copy
    | Verify(left: set<Digest>)
    | Recheck
    | Upload
    | Postflight
    | Remediate(bad: set<Digest>)

  /** A run in progress. `inFlight` holds the copies in flight with the bytes
      read, `done` the copies counted so far, in order. */
  datatype Attempt = Attempt(
    opts: Options,
    names: Names,
    version: nat,
    stage: Stage,
    srcMissing: set<Digest>,
    dstMissing: set<Digest>,
    todo: set<Digest>,
    inFlight: Blobs,
    done: seq<Body>,
    copied: nat,
    bytes: nat)

  datatype Outcome = Finished(report: Report) | Failed(stage: Stage)

  datatype State = State(
    source: Blobs,
    sourceNames: Names,
    sourceVersion: nat,
    target: Blobs,
    meta: Option<Meta>,
    attempt: Option<Attempt>,
    outcome: Option<Outcome>,          // of the last run
    orphans: set<Body>,                // uploads of dropped copies that may yet land
    removed: set<Digest>,              // by the clean-up, since metadata was last uploaded
    held: bool)                        // the lease that keeps writers out is held

  datatype Step =
    | SourceBlob(d: Digest, now: Option<Body>)
    | SourceMeta(names: Names)
    | OtherPut(body: Body)
    | OtherMeta
    | Lease(held: bool)
    | Land(body: Body)
    | Begin(opts: Options)
    | ProbedSource(d: Digest)
    | SourceProbed
    | ProbedTarget(d: Digest)
    | Planned(order: seq<Digest>)      // the planned copies, in order
    | Open(d: Digest)
    | PutDone(d: Digest)
    | PutMismatch(d: Digest)
    | CopyDone
    | Verified(d: Digest)
    | VerifyDone
    | Rechecked
    | Uploaded
    | UploadLost
    | PostOk
    | PostBad(bad: set<Digest>)
    | RemoveBlob(d: Digest)
    | RemoveMeta
    | Fail

  /** Missing in the target and present in the source. */
  function Missing(a: Attempt): set<Digest> {
    a.dstMissing - a.srcMissing
  }

  /** What has to be in the target before the metadata may go there. */
  function Needed(a: Attempt): set<Digest> {
    a.names.Keys - a.srcMissing
  }

  /** A store keeps the bytes it already has under a hash. */
  function Put(target: Blobs, b: Body): (t: Blobs)
    ensures b.hash in t && forall d :: d in target ==> d in t && t[d] == target[d]
  {
    if b.hash in target then target else target[b.hash := b]
  }

  function Sum(done: seq<Body>): nat {
    if done == [] then 0 else Sum(done[..|done| - 1]) + done[|done| - 1].size
  }

  function SumRecorded(names: Names, order: seq<Digest>): int {
    if order == [] then 0
    else
      var d := order[|order| - 1];
      SumRecorded(names, order[..|order| - 1]) + (if d in names && names[d].Some? then names[d].value else 0)
  }

  predicate Enumerates(order: seq<Digest>, ds: set<Digest>) {
    && (forall i, j :: 0 <= i < j < |order| ==> order[i] != order[j])
    && (forall i :: 0 <= i < |order| ==> order[i] in ds)
    && (forall d :: d in ds ==> d in order)
  }

  predicate Slots(a: Attempt) {
    |a.inFlight| < (if a.opts.concurrency == 0 then 1 else a.opts.concurrency)
  }

  predicate Enabled(s: State, step: Step) {
    if step.SourceBlob? || step.SourceMeta? || step.OtherPut? || step.OtherMeta? || step.Lease? then true
    else if step.Land? then step.body in s.orphans
    else if step.Begin? then s.attempt.None?
    else s.attempt.Some? && CanGo(s, s.attempt.value, step)
  }

  predicate CanGo(s: State, a: Attempt, step: Step) {
    match a.stage
    case ProbeSource(left) => step.Fail? || (step.ProbedSource? && step.d in left) || (step.SourceProbed? && left == {})
    case ProbeTarget(left) =>
      || step.Fail?
      || (step.ProbedTarget? && step.d in left)
      || (step.Planned? && left == {} && PlanPasses(s, a) && Enumerates(step.order, Missing(a)))
    case Copy =>
      || step.Fail?
      || (step.Open? && step.d in a.todo && step.d in s.source && Slots(a) && s.held)
      || (step.PutDone? && step.d in a.inFlight && a.inFlight[step.d].hash == step.d)
      || (step.PutMismatch? && step.d in a.inFlight && a.inFlight[step.d].hash != step.d)
      || (step.CopyDone? && a.todo == {} && a.inFlight == map[])
    case Verify(left) => step.Fail? || (step.Verified? && step.d in left && step.d in s.target) || (step.VerifyDone? && left == {})
    case Recheck => step.Fail? || (step.Rechecked? && s.sourceVersion == a.version && s.held)
    case Upload => step.Fail? || ((step.Uploaded? || step.UploadLost?) && (a.opts.overwrite || s.meta.None?))
    case Postflight => step.Fail? || step.PostOk? || (step.PostBad? && step.bad <= Needed(a))
    case Remediate(bad) => step.Fail? || (step.RemoveBlob? && step.d in bad) || (step.RemoveMeta? && bad == {})
  }

  /** No check of the plan fails. */
  predicate PlanPasses(s: State, a: Attempt) {
    && (a.srcMissing == {} || a.opts.allowMissing)
    && (s.meta.None? || a.opts.overwrite)
  }

  function With(s: State, a: Attempt): State {
    s.(attempt := Some(a))
  }

  function Ended(s: State, outcome: Outcome): State {
    s.(attempt := None, outcome := Some(outcome))
  }

  /** The run is dropped, and with it the copies in flight. */
  function Dropped(s: State, a: Attempt): State {
    Ended(s.(orphans := s.orphans + a.inFlight.Values), Failed(a.stage))
  }

  function ReportOf(a: Attempt): Report {
    Report(|a.names|, a.copied, |a.names| - |Missing(a)|, a.bytes, true, false)
  }

  function DryReport(a: Attempt, order: seq<Digest>): Report {
    Report(|a.names|, |Missing(a)|, |a.names| - |Missing(a)|, SumRecorded(a.names, order), false, true)
  }

  function Do(s: State, step: Step): (s': State)
    requires Enabled(s, step)
  {
    match step
    case SourceBlob(d, body) =>
      s.(source := match body case None => s.source - {d} case Some(b) => s.source[d := b])
    case SourceMeta(names) => s.(sourceNames := names, sourceVersion := s.sourceVersion + 1)
    case OtherPut(body) => s.(target := Put(s.target, body))
    case OtherMeta => s.(meta := Some(Foreign))
    case Lease(held) => s.(held := held)
    case Land(body) => s.(target := Put(s.target, body), orphans := s.orphans - {body})
    case Begin(opts) =>
      With(s, Attempt(opts, s.sourceNames, s.sourceVersion, ProbeSource(s.sourceNames.Keys), {}, {}, {}, map[], [], 0, 0))
    case _ => Go(s, s.attempt.value, step)
  }

  function Go(s: State, a: Attempt, step: Step): (s': State)
    requires CanGo(s, a, step)
  {
    if step.ProbedSource? then
      With(s, a.(stage := ProbeSource(a.stage.left - {step.d}),
                 srcMissing := if step.d in s.source then a.srcMissing else a.srcMissing + {step.d}))
    else if step.SourceProbed? then
      With(s, a.(stage := ProbeTarget(a.names.Keys)))
    else if step.ProbedTarget? then
      With(s, a.(stage := ProbeTarget(a.stage.left - {step.d}),
                 dstMissing := if step.d in s.target then a.dstMissing else a.dstMissing + {step.d}))
    else if step.Planned? then
      if a.opts.dryRun then Ended(s, Finished(DryReport(a, step.order)))
      else With(s, a.(stage := Copy, todo := Missing(a)))
    else if step.Open? then
      With(s, a.(todo := a.todo - {step.d}, inFlight := a.inFlight[step.d := s.source[step.d]]))
    else if step.PutDone? then
      var b := a.inFlight[step.d];
      With(s, CountedIn(a, b)).(target := Put(s.target, b))
    else if step.PutMismatch? then
      Dropped(s.(target := Put(s.target, a.inFlight[step.d])), a.(inFlight := a.inFlight - {step.d}))
    else if step.CopyDone? then With(s, a.(stage := Verify(Needed(a))))
    else if step.Verified? then With(s, a.(stage := Verify(a.stage.left - {step.d})))
    else if step.VerifyDone? then With(s, a.(stage := Recheck))
    else if step.Rechecked? then With(s, a.(stage := Upload))
    else if step.Uploaded? then With(Publish(s, a), a.(stage := Postflight))
    else if step.UploadLost? then Ended(Publish(s, a), Failed(a.stage))
    else if step.PostOk? then Ended(s, Finished(ReportOf(a)))
    else if step.PostBad? then With(s, a.(stage := Remediate(step.bad)))
    else if step.RemoveBlob? then
      With(s, a.(stage := Remediate(a.stage.bad - {step.d}))).(target := s.target - {step.d}, removed := s.removed + {step.d})
    else if step.RemoveMeta? then Ended(s.(meta := None, removed := {}), Failed(a.stage))
    else Dropped(s, a)
  }

  /** The staged snapshot becomes the target's metadata object. */
  function Publish(s: State, a: Attempt): State {
    s.(meta := Some(Migrated(a.names.Keys, a.srcMissing)), removed := {})
  }

  predicate Init(s: State) {
    s.attempt.None? && s.orphans == {} && s.removed == {} && (s.meta.Some? ==> s.meta.value.Foreign?)
  }

  predicate Goes(s: State, step: Step, s': State) {
    Enabled(s, step) && s' == Do(s, step)
  }

  predicate Run(states: seq<State>, steps: seq<Step>) {
    && |states| == |steps| + 1
    && forall i :: 0 <= i < |steps| ==> Enabled(states[i], steps[i]) && states[i + 1] == Do(states[i], steps[i])
  }

  /** Steps of the surroundings, none of them of a run. */
  predicate IsOutside(step: Step) {
    step.SourceBlob? || step.SourceMeta? || step.OtherPut? || step.OtherMeta? || step.Lease? || step.Land?
  }

  /** A step is one of the surroundings, the beginning of a run, or one of a run. */
  lemma Dispatch(s: State, step: Step)
    requires Enabled(s, step)
    ensures if IsOutside(step) then Do(s, step).attempt == s.attempt
            else if step.Begin? then s.attempt.None? && Do(s, step).attempt.Some?
            else s.attempt.Some? && CanGo(s, s.attempt.value, step) && Do(s, step) == Go(s, s.attempt.value, step)
  {
    hide CanGo, Go;
  }

  /** The steps open to a run at each end of its way. */
  lemma StagesAllow(s: State, a: Attempt, step: Step)
    requires CanGo(s, a, step)
    ensures a.stage.Remediate? ==> step.Fail? || step.RemoveBlob? || step.RemoveMeta?
    ensures a.stage.Postflight? ==> step.Fail? || step.PostOk? || step.PostBad?
    ensures a.stage.ProbeSource? ==> step.Fail? || step.ProbedSource? || step.SourceProbed?
    ensures a.stage.ProbeTarget? ==> step.Fail? || step.ProbedTarget? || step.Planned?
  {
  }

  // ----- the invariant -----

  predicate Probed(a: Attempt) {
    && a.srcMissing <= a.names.Keys && a.dstMissing <= a.names.Keys
    && (a.stage.ProbeSource? ==> a.stage.left <= a.names.Keys)
    && (a.stage.ProbeTarget? ==> a.stage.left <= a.names.Keys)
    && (a.stage.ProbeSource? || a.stage.ProbeTarget? ==> a.inFlight == map[] && a.done == [] && a.copied == a.bytes == 0)
    && (!a.stage.ProbeSource? && !a.stage.ProbeTarget? ==> a.srcMissing == {} || a.opts.allowMissing)
  }

  /** Digest `d` is the name of the body at `i`. */
  predicate Counted(done: seq<Body>, d: Digest) {
    exists i :: 0 <= i < |done| && done[i].hash == d
  }

  /** Each planned copy is still to do, in flight or counted, and only one of these. */
  ghost predicate Accounted(a: Attempt) {
    && (forall i, j :: 0 <= i < j < |a.done| ==> a.done[i].hash != a.done[j].hash)
    && (forall d :: d in Missing(a) <==> d in a.todo || d in a.inFlight || Counted(a.done, d))
    && (forall d :: d in a.inFlight ==> d !in a.todo && !Counted(a.done, d))
    && (forall d :: d in a.todo ==> !Counted(a.done, d))
    && a.copied == |a.done| && a.bytes == Sum(a.done)
    && (!a.stage.Copy? ==> a.todo == {} && a.inFlight == map[])
  }

  /** The blobs already known to be in the target at each stage. */
  predicate Present(s: State, a: Attempt) {
    match a.stage
    case Verify(left) => Needed(a) - left <= s.target.Keys
    case Recheck => Needed(a) <= s.target.Keys
    case Upload => Needed(a) <= s.target.Keys
    case _ => true
  }

  ghost predicate AttemptInv(s: State, a: Attempt) {
    && Probed(a)
    && (!a.stage.ProbeSource? && !a.stage.ProbeTarget? ==> Accounted(a))
    && Present(s, a)
  }

  predicate MetaInv(s: State) {
    s.meta.Some? && s.meta.value.Migrated? ==> s.meta.value.names - s.meta.value.allowed - s.removed <= s.target.Keys
  }

  ghost predicate Inv(s: State) {
    && MetaInv(s)
    && (s.attempt.Some? ==> AttemptInv(s, s.attempt.value))
  }

  lemma CountedAppend(done: seq<Body>, b: Body, d: Digest)
    ensures Counted(done + [b], d) <==> Counted(done, d) || b.hash == d
  {
    if Counted(done, d) {
      var i :| 0 <= i < |done| && done[i].hash == d;
      assert (done + [b])[i].hash == d;
    }
    assert (done + [b])[|done|].hash == b.hash;
  }

  lemma EnvironmentStep(s: State, step: Step)
    requires Inv(s) && Enabled(s, step) && (step.SourceBlob? || step.SourceMeta? || step.OtherPut? || step.OtherMeta? || step.Lease? || step.Land?)
    ensures Inv(Do(s, step))
  {
    hide Accounted, Probed;
  }

  lemma BeginStep(s: State, step: Step)
    requires Inv(s) && Enabled(s, step) && step.Begin?
    ensures Inv(Do(s, step))
  {
    hide Accounted;
  }

  lemma ProbeStep(s: State, step: Step)
    requires Inv(s) && Enabled(s, step) && (step.ProbedSource? || step.SourceProbed? || step.ProbedTarget?)
    ensures Inv(Do(s, step))
  {
    hide Accounted;
  }

  lemma PlannedStep(s: State, step: Step)
    requires Inv(s) && Enabled(s, step) && step.Planned?
    ensures Inv(Do(s, step))
  {
  }

  lemma OpenStep(s: State, step: Step)
    requires Inv(s) && Enabled(s, step) && step.Open?
    ensures Inv(Do(s, step))
  {
  }

  /** A finished copy moves from in flight to counted. */
  function CountedIn(a: Attempt, b: Body): Attempt {
    a.(inFlight := a.inFlight - {b.hash}, done := a.done + [b], copied := a.copied + 1, bytes := a.bytes + b.size)
  }

  lemma CountedInKeeps(a: Attempt, b: Body)
    requires Accounted(a) && a.stage.Copy? && b.hash in a.inFlight
    ensures Accounted(CountedIn(a, b))
  {
    forall d
      ensures Counted(a.done + [b], d) <==> Counted(a.done, d) || b.hash == d
    {
      CountedAppend(a.done, b, d);
    }
    assert (a.done + [b])[..|a.done|] == a.done;
    forall i | 0 <= i < |a.done|
      ensures a.done[i].hash != b.hash
    {
      assert Counted(a.done, a.done[i].hash);
    }
  }

  lemma PutDoneStep(s: State, step: Step)
    requires Inv(s) && Enabled(s, step) && step.PutDone?
    ensures Inv(Do(s, step))
  {
    var a := s.attempt.value;
    CountedInKeeps(a, a.inFlight[step.d]);
    hide Accounted;
  }

  lemma VerifyStep(s: State, step: Step)
    requires Inv(s) && Enabled(s, step)
    requires step.CopyDone? || step.Verified? || step.VerifyDone?
    ensures Inv(Do(s, step))
  {
  }

  lemma PublishStep(s: State, step: Step)
    requires Inv(s) && Enabled(s, step) && (step.Rechecked? || step.Uploaded? || step.PostBad?)
    ensures Inv(Do(s, step))
  {
  }

  lemma RemoveBlobStep(s: State, step: Step)
    requires Inv(s) && Enabled(s, step) && step.RemoveBlob?
    ensures Inv(Do(s, step))
  {
  }

  lemma EndStep(s: State, step: Step)
    requires Inv(s) && Enabled(s, step)
    requires step.PutMismatch? || step.UploadLost? || step.PostOk? || step.RemoveMeta? || step.Fail?
    ensures Inv(Do(s, step))
  {
  }

  lemma StepInv(s: State, step: Step)
    requires Inv(s) && Enabled(s, step)
    ensures Inv(Do(s, step))
  {
    hide Inv;
    if step.SourceBlob? || step.SourceMeta? || step.OtherPut? || step.OtherMeta? || step.Lease? || step.Land? {
      EnvironmentStep(s, step);
    } else if step.Begin? {
      BeginStep(s, step);
    } else if step.ProbedSource? || step.SourceProbed? || step.ProbedTarget? {
      ProbeStep(s, step);
    } else if step.Planned? {
      PlannedStep(s, step);
    } else if step.Open? {
      OpenStep(s, step);
    } else if step.PutDone? {
      PutDoneStep(s, step);
    } else if step.PutMismatch? || step.UploadLost? || step.PostOk? || step.RemoveMeta? || step.Fail? {
      EndStep(s, step);
    } else if step.RemoveBlob? {
      RemoveBlobStep(s, step);
    } else if step.Rechecked? || step.Uploaded? || step.PostBad? {
      PublishStep(s, step);
    } else {
      VerifyStep(s, step);
    }
  }

  lemma {:induction false} RunInv(states: seq<State>, steps: seq<Step>, n: nat)
    requires Run(states, steps) && Init(states[0]) && n < |states|
    ensures Inv(states[n])
  {
    if n > 0 {
      RunInv(states, steps, n - 1);
      StepInv(states[n - 1], steps[n - 1]);
    }
  }

  // ----- metadata last -----

  /** Every blob the migrated metadata names is there, except the allowed ones. */
  predicate Complete(s: State) {
    s.meta.Some? && s.meta.value.Migrated? ==> s.meta.value.names - s.meta.value.allowed <= s.target.Keys
  }

  /** However copies interleave and wherever runs fail, the target's metadata is
      written only when all it names, except what was allowed to be missing, is
      in the target; and only an explicit option allows anything to be missing. */
  lemma MetadataIsLast(states: seq<State>, steps: seq<Step>, i: nat)
    requires Run(states, steps) && Init(states[0]) && i < |steps|
    requires steps[i].Uploaded? || steps[i].UploadLost?
    ensures var a := states[i].attempt.value;
            && states[i + 1].meta == Some(Migrated(a.names.Keys, a.srcMissing))
            && a.names.Keys - a.srcMissing <= states[i].target.Keys
            && (a.srcMissing == {} || a.opts.allowMissing)
            && (a.opts.overwrite || states[i].meta.None?)
  {
    RunInv(states, steps, i);
  }

  /** Nothing but these two uploads ever makes migrated metadata appear. */
  lemma OnlyUploadsPublish(s: State, step: Step)
    requires Enabled(s, step) && Do(s, step).meta != s.meta
    ensures step.Uploaded? || step.UploadLost? || step.RemoveMeta? || step.OtherMeta?
    ensures Do(s, step).meta.Some? && Do(s, step).meta.value.Migrated? ==> step.Uploaded? || step.UploadLost?
  {
  }

  predicate Early(a: Attempt) {
    !a.stage.Postflight? && !a.stage.Remediate?
  }

  lemma EarlyStep(s: State, step: Step, s': State)
    requires s.attempt.Some? && s'.attempt.Some? && Early(s'.attempt.value) && !step.OtherMeta?
    ensures Goes(s, step, s') ==> Early(s.attempt.value) && s'.meta == s.meta
  {
    if Goes(s, step, s') {
      LateStaysLate(s, step);
      EarlyWritesNothing(s, step);
      hide Do, Early;
    }
  }

  lemma LateStaysLate(s: State, step: Step)
    requires s.attempt.Some? && Enabled(s, step)
    ensures Do(s, step).attempt.Some? && Early(Do(s, step).attempt.value) ==> Early(s.attempt.value)
  {
    Dispatch(s, step);
    if !IsOutside(step) && !step.Begin? {
      hide Do, Enabled, CanGo;
      StagesAllow(s, s.attempt.value, step);
    }
  }

  lemma EarlyWritesNothing(s: State, step: Step)
    requires s.attempt.Some? && Enabled(s, step) && !step.OtherMeta?
    ensures Do(s, step).attempt.Some? && Early(Do(s, step).attempt.value) ==> Do(s, step).meta == s.meta
  {
  }

  /** Since its `Begin` at `from` one run has been going on, nobody else wrote
      the metadata, and the run is still short of its postflight. */
  predicate EarlyRun(states: seq<State>, steps: seq<Step>, from: nat, n: nat) {
    && Run(states, steps) && from < n < |states| && steps[from].Begin?
    && (forall k :: from < k <= n ==> states[k].attempt.Some?)
    && (forall k :: from < k < n ==> !steps[k].OtherMeta?)
    && Early(states[n].attempt.value)
  }

  lemma EarlyRunBefore(states: seq<State>, steps: seq<Step>, from: nat, n: nat)
    requires EarlyRun(states, steps, from, n) && n > from + 1
    ensures EarlyRun(states, steps, from, n - 1) && states[n].meta == states[n - 1].meta
  {
    hide Enabled, Do, Early;
    EarlyStep(states[n - 1], steps[n - 1], states[n]);
  }

  lemma EarlyRunRange(states: seq<State>, steps: seq<Step>, from: nat, n: nat)
    requires EarlyRun(states, steps, from, n)
    ensures from < n < |states|
  {
  }

  lemma BeginKeepsMeta(states: seq<State>, steps: seq<Step>, from: nat)
    requires EarlyRun(states, steps, from, from + 1)
    ensures states[from + 1].meta == states[from].meta
  {
  }

  lemma {:induction false} EarlyKeepsMeta(states: seq<State>, steps: seq<Step>, from: nat, n: nat)
    requires EarlyRun(states, steps, from, n)
    ensures states[n].meta == states[from].meta
    decreases n
  {
    hide EarlyRun, Run;
    EarlyRunRange(states, steps, from, n);
    if n == from + 1 {
      BeginKeepsMeta(states, steps, from);
    } else {
      EarlyRunBefore(states, steps, from, n);
      EarlyKeepsMeta(states, steps, from, n - 1);
    }
  }

  /** A run that fails while planning, copying or verifying, or whose upload does
      not take effect, leaves the target's metadata as it found it; and so does
      a dry run. */
  lemma EarlyEndKeepsMeta(states: seq<State>, steps: seq<Step>, from: nat, n: nat)
    requires EarlyRun(states, steps, from, n) && n < |steps|
    requires states[n + 1].attempt.None? && !steps[n].UploadLost?
    ensures states[n + 1].meta == states[from].meta
  {
    EarlyKeepsMeta(states, steps, from, n);
    hide EarlyRun;
    EndKeepsMeta(states[n], steps[n]);
  }

  lemma EndKeepsMeta(s: State, step: Step)
    requires Enabled(s, step) && s.attempt.Some? && Early(s.attempt.value) && Do(s, step).attempt.None? && !step.UploadLost?
    ensures Do(s, step).meta == s.meta
  {
  }

  predicate Dangles(s: State, step: Step) {
    && step.RemoveBlob? && s.meta.Some? && s.meta.value.Migrated?
    && step.d in s.meta.value.names - s.meta.value.allowed
  }

  /** Migrated metadata stays complete exactly until the clean-up after a failed
      postflight removes a blob it names: the clean-up removes blobs before it
      removes the metadata. */
  lemma CompleteExactly(states: seq<State>, steps: seq<Step>, n: nat)
    requires Run(states, steps) && Init(states[0]) && n < |steps| && states[n].removed == {}
    ensures Complete(states[n])
    ensures Complete(states[n + 1]) <==> !Dangles(states[n], steps[n])
  {
    hide Inv, Complete, Dangles, Do, Enabled;
    RunInv(states, steps, n);
    CompleteStep(states[n], steps[n]);
  }

  lemma CompleteStep(s: State, step: Step)
    requires Inv(s) && s.removed == {} && Enabled(s, step)
    ensures Complete(s) && (Complete(Do(s, step)) <==> !Dangles(s, step))
  {
    hide AttemptInv;
    StepInv(s, step);
  }

  // ----- copies in flight -----

  /** No more copies are in flight than the options allow, but always one. */
  predicate FlightInv(s: State) {
    s.attempt.Some? ==> |s.attempt.value.inFlight| <= (if s.attempt.value.opts.concurrency == 0 then 1 else s.attempt.value.opts.concurrency)
  }

  lemma FlightStep(s: State, step: Step)
    requires FlightInv(s) && Enabled(s, step)
    ensures FlightInv(Do(s, step)) && (step.Open? ==> s.held)
  {
    if step.Open? {
      OpenFlies(s, step);
    } else if step.PutDone? {
      PutDoneLands(s, step);
    } else {
      KeepsFlight(s, step);
    }
  }

  lemma OpenFlies(s: State, step: Step)
    requires FlightInv(s) && Enabled(s, step) && step.Open?
    ensures FlightInv(Do(s, step)) && s.held
  {
    var a := s.attempt.value;
    var flight := a.inFlight[step.d := s.source[step.d]];
    assert flight.Keys == a.inFlight.Keys + {step.d} && |flight| == |flight.Keys| && |a.inFlight| == |a.inFlight.Keys|;
  }

  lemma PutDoneLands(s: State, step: Step)
    requires FlightInv(s) && Enabled(s, step) && step.PutDone?
    ensures FlightInv(Do(s, step))
  {
    var a := s.attempt.value;
    var flight := a.inFlight - {step.d};
    assert flight.Keys == a.inFlight.Keys - {step.d} && |flight| == |flight.Keys| && |a.inFlight| == |a.inFlight.Keys|;
  }

  lemma KeepsFlight(s: State, step: Step)
    requires Enabled(s, step) && !step.Open? && !step.PutDone?
    ensures var s' := Do(s, step);
            s'.attempt.Some? ==>
              if step.Begin? then s'.attempt.value.inFlight == map[]
              else s.attempt.Some? && s'.attempt.value.inFlight == s.attempt.value.inFlight
                   && s'.attempt.value.opts == s.attempt.value.opts
  {
    if !IsOutside(step) && !step.Begin? {
      RunKeepsFlight(s, s.attempt.value, step);
    }
  }

  lemma RunKeepsFlight(s: State, a: Attempt, step: Step)
    requires CanGo(s, a, step) && !step.Open? && !step.PutDone?
    ensures Go(s, a, step).attempt.Some? ==>
              Go(s, a, step).attempt.value.inFlight == a.inFlight && Go(s, a, step).attempt.value.opts == a.opts
  {
    hide CanGo;
  }

  /** In every run the number of copies in flight is bounded, and a copy begins
      only while the lease is held. */
  lemma {:induction false} CopiesAreBounded(states: seq<State>, steps: seq<Step>, n: nat)
    requires Run(states, steps) && Init(states[0]) && n < |states|
    ensures FlightInv(states[n]) && (n < |steps| && steps[n].Open? ==> states[n].held)
  {
    hide Do, FlightInv;
    if n > 0 {
      CopiesAreBounded(states, steps, n - 1);
      FlightStep(states[n - 1], steps[n - 1]);
    } else {
      NothingInFlight(states[0]);
    }
  }

  lemma NothingInFlight(s: State)
    requires Init(s)
    ensures FlightInv(s)
  {
  }

  // ----- the recheck before the upload -----

  /** At step `k` this run found the source's metadata at the planned version and
      the lease held, and has done nothing since. */
  predicate RecheckedAt(states: seq<State>, steps: seq<Step>, k: int, n: int) {
    && 0 <= k < n < |states| == |steps| + 1 && states[n].attempt.Some?
    && steps[k].Rechecked? && states[k].attempt.Some?
    && states[k].sourceVersion == states[k].attempt.value.version && states[k].held
    && states[k].attempt.value.(stage := Upload) == states[n].attempt.value
    && forall m :: k < m < n ==> IsOutside(steps[m])
  }

  /** A run is about to upload at `n`. */
  predicate AtUpload(states: seq<State>, steps: seq<Step>, n: int) {
    && Run(states, steps) && Init(states[0]) && 0 <= n < |states|
    && states[n].attempt.Some? && states[n].attempt.value.stage.Upload?
  }

  lemma UploadComesFrom(s: State, step: Step)
    requires Enabled(s, step) && Do(s, step).attempt.Some? && Do(s, step).attempt.value.stage.Upload?
    ensures s.attempt.Some?
    ensures if step.Rechecked? then
              s.attempt.value.stage.Recheck? && s.sourceVersion == s.attempt.value.version && s.held
              && s.attempt.value.(stage := Upload) == Do(s, step).attempt.value
            else IsOutside(step) && s.attempt == Do(s, step).attempt
  {
    hide Slots, PlanPasses, Enumerates;
  }

  /** It is so since its recheck, with only outside steps in between. */
  lemma AtUploadBefore(states: seq<State>, steps: seq<Step>, n: int)
    requires AtUpload(states, steps, n)
    ensures n > 0 && |states| == |steps| + 1 && n < |states|
    ensures RecheckedAt(states, steps, n - 1, n) ||
            (AtUpload(states, steps, n - 1) && IsOutside(steps[n - 1]) && states[n].attempt == states[n - 1].attempt)
  {
    assert n > 0;
    var s, step := states[n - 1], steps[n - 1];
    assert Enabled(s, step) && states[n] == Do(s, step);
    hide Enabled, Do, Init;
    UploadComesFrom(s, step);
  }

  lemma RecheckedLater(states: seq<State>, steps: seq<Step>, k: int, n: int)
    requires 0 < n < |states| == |steps| + 1 && states[n].attempt == states[n - 1].attempt
    requires RecheckedAt(states, steps, k, n - 1) && IsOutside(steps[n - 1])
    ensures RecheckedAt(states, steps, k, n)
  {
    hide IsOutside;
  }

  lemma {:induction false} UploadWasRechecked(states: seq<State>, steps: seq<Step>, n: int)
    requires AtUpload(states, steps, n)
    ensures exists k :: RecheckedAt(states, steps, k, n)
    decreases n
  {
    hide AtUpload, RecheckedAt, IsOutside;
    AtUploadBefore(states, steps, n);
    if !RecheckedAt(states, steps, n - 1, n) {
      UploadWasRechecked(states, steps, n - 1);
      var k :| RecheckedAt(states, steps, k, n - 1);
      RecheckedLater(states, steps, k, n);
    }
  }

  /** Every metadata write, acknowledged or not, comes after a step of the same
      run at which the source's metadata still had the planned version and the
      lease was held; after that step the run copied and verified nothing more. */
  lemma UploadIsRechecked(states: seq<State>, steps: seq<Step>, i: nat)
    requires Run(states, steps) && Init(states[0]) && i < |steps|
    requires steps[i].Uploaded? || steps[i].UploadLost?
    ensures states[i].attempt.Some? && exists k :: RecheckedAt(states, steps, k, i)
  {
    assert AtUpload(states, steps, i);
    UploadWasRechecked(states, steps, i);
  }

  // ----- how a run ends after its clean-up -----

  /** Nobody else changes the target. */
  predicate Undisturbed(step: Step) {
    !step.OtherMeta? && !step.OtherPut? && !step.Land?
  }

  /** A run past its upload: its metadata is in place, and the target lacks of
      the needed blobs exactly those that the clean-up removed. */
  predicate Cleaning(s: State) {
    && s.attempt.Some? && !Early(s.attempt.value)
    && var a := s.attempt.value;
    && s.meta == Some(Migrated(a.names.Keys, a.srcMissing))
    && s.removed <= Needed(a) && s.removed !! s.target.Keys && Needed(a) - s.removed <= s.target.Keys
    && (a.stage.Remediate? ==> a.stage.bad <= Needed(a))
  }

  lemma UploadStartsCleaning(s: State)
    requires Inv(s) && Enabled(s, Uploaded)
    ensures Cleaning(Do(s, Uploaded)) && Do(s, Uploaded).removed == {}
  {
    hide Accounted, Probed;
  }

  lemma CleaningStep(s: State, step: Step)
    requires Cleaning(s) && Enabled(s, step) && Undisturbed(step) && Do(s, step).attempt.Some?
    ensures Cleaning(Do(s, step))
    ensures Do(s, step).removed == {} <==> s.removed == {} && !step.RemoveBlob?
  {
  }

  /** From the upload at `up` on, one run has been going on undisturbed. */
  predicate AfterUpload(states: seq<State>, steps: seq<Step>, up: nat, n: nat) {
    && Run(states, steps) && Init(states[0]) && up < n < |states| && steps[up].Uploaded?
    && (forall k :: up < k <= n ==> states[k].attempt.Some?)
    && (forall k :: up < k < n ==> Undisturbed(steps[k]))
  }

  lemma AfterUploadBefore(states: seq<State>, steps: seq<Step>, up: nat, n: nat)
    requires AfterUpload(states, steps, up, n) && n > up + 1
    ensures AfterUpload(states, steps, up, n - 1) && Undisturbed(steps[n - 1])
    ensures Goes(states[n - 1], steps[n - 1], states[n]) && states[n].attempt.Some?
  {
    hide Undisturbed, Enabled, Do, Init;
  }

  lemma AfterUploadFirst(states: seq<State>, steps: seq<Step>, up: nat)
    requires AfterUpload(states, steps, up, up + 1)
    ensures Cleaning(states[up + 1]) && states[up + 1].removed == {}
  {
    hide Inv, Cleaning;
    RunInv(states, steps, up);
    UploadStartsCleaning(states[up]);
  }

  predicate NothingRemoved(steps: seq<Step>, up: nat, n: nat)
    requires up < n <= |steps|
  {
    forall k :: up < k < n ==> !steps[k].RemoveBlob?
  }

  lemma {:induction false} CleaningRun(states: seq<State>, steps: seq<Step>, up: nat, n: nat)
    requires |states| == |steps| + 1 && up < n < |states| && AfterUpload(states, steps, up, n)
    ensures Cleaning(states[n]) && (states[n].removed == {} <==> NothingRemoved(steps, up, n))
    decreases n
  {
    hide AfterUpload, Cleaning, Run;
    if n == up + 1 {
      AfterUploadFirst(states, steps, up);
    } else {
      AfterUploadBefore(states, steps, up, n);
      CleaningRun(states, steps, up, n - 1);
      CleaningStep(states[n - 1], steps[n - 1]);
    }
  }

  lemma CleaningEnds(s: State, step: Step)
    requires Cleaning(s) && Enabled(s, step) && s.attempt.value.stage.Remediate? && Do(s, step).attempt.None?
    ensures Complete(Do(s, step)) <==> step.RemoveMeta? || s.removed == {}
  {
    EndOfCleaning(s, step);
    hide Do, Enabled, Early;
    if s.removed != {} {
      var d :| d in s.removed;
      assert d !in s.target.Keys;
    }
  }

  lemma EndOfCleaning(s: State, step: Step)
    requires Enabled(s, step) && s.attempt.Some? && s.attempt.value.stage.Remediate? && Do(s, step).attempt.None?
    ensures Do(s, step).target == s.target && Do(s, step).meta == if step.RemoveMeta? then None else s.meta
  {
    Dispatch(s, step);
    hide Do, Enabled, CanGo;
    if !IsOutside(step) && !step.Begin? {
      StagesAllow(s, s.attempt.value, step);
    }
  }

  /** How a run ends whose postflight failed, with nobody else writing since its
      upload: the target is left complete exactly if the clean-up got as far as
      removing the metadata, or removed no blob at all. */
  lemma EndsCompleteExactly(states: seq<State>, steps: seq<Step>, up: nat, n: nat)
    requires AfterUpload(states, steps, up, n) && n < |steps|
    requires states[n].attempt.value.stage.Remediate? && states[n + 1].attempt.None?
    ensures Complete(states[n + 1]) <==> steps[n].RemoveMeta? || NothingRemoved(steps, up, n)
  {
    hide Cleaning;
    CleaningRun(states, steps, up, n);
    CleaningEnds(states[n], steps[n]);
  }

  // ----- a run whose clean-up leaves metadata dangling -----

  ghost predicate Reached(s: State) {
    exists states, steps :: Run(states, steps) && Init(states[0]) && states[|steps|] == s
  }

  lemma Then(s: State, step: Step, s': State)
    requires Reached(s) && Goes(s, step, s')
    ensures Reached(s')
  {
    hide Do, Enabled, Init;
    var states: seq<State>, steps: seq<Step> :| Run(states, steps) && Init(states[0]) && states[|steps|] == s;
    var longer, more := states + [s'], steps + [step];
    assert Run(longer, more) && longer[|more|] == s';
  }

  /** Blob 1 is named by the metadata and already in the target; a run that has
      nothing to copy is at `stage`. */
  function At(stage: Stage, meta: Option<Meta>): State {
    var blobs := map[1 := Body(1, 5)];
    var names := map[1 := None];
    State(blobs, names, 0, blobs, meta,
          Some(Attempt(Options(1, false, false, false), names, 0, stage, {}, {}, {}, map[], [], 0, 0)), None, {}, {}, true)
  }

  lemma Beginning()
    ensures Reached(At(ProbeSource({1}), None))
  {
    var start := At(Copy, None).(attempt := None);
    assert Reached(start) by {
      var steps: seq<Step> := [];
      assert Run([start], steps) && Init([start][0]) && [start][|steps|] == start;
    }
    hide Reached;
    assert start.sourceNames.Keys == {1};
    Then(start, Begin(Options(1, false, false, false)), At(ProbeSource({1}), None));
  }

  lemma Planning()
    ensures Reached(At(ProbeTarget({}), None))
  {
    Beginning();
    hide Reached;
    assert At(Copy, None).sourceNames.Keys == {1};
    var one: set<Digest> := {1};
    assert one - {1} == {};
    Then(At(ProbeSource({1}), None), ProbedSource(1), At(ProbeSource({}), None));
    Then(At(ProbeSource({}), None), SourceProbed, At(ProbeTarget({1}), None));
    Then(At(ProbeTarget({1}), None), ProbedTarget(1), At(ProbeTarget({}), None));
  }

  lemma Copying()
    ensures Reached(At(Verify({1}), None))
  {
    Planning();
    hide Reached;
    assert Needed(At(Copy, None).attempt.value) == {1} && Missing(At(Copy, None).attempt.value) == {};
    Then(At(ProbeTarget({}), None), Planned([]), At(Copy, None));
    Then(At(Copy, None), CopyDone, At(Verify({1}), None));
  }

  lemma Verifying()
    ensures Reached(At(Recheck, None))
  {
    Copying();
    hide Reached;
    var one: set<Digest> := {1};
    assert one - {1} == {};
    Then(At(Verify({1}), None), Verified(1), At(Verify({}), None));
    Then(At(Verify({}), None), VerifyDone, At(Recheck, None));
  }

  lemma Publishing()
    ensures Reached(At(Remediate({1}), Some(Migrated({1}, {}))))
  {
    Verifying();
    hide Reached;
    var meta := Some(Migrated({1}, {}));
    assert At(Upload, None).sourceNames.Keys == {1};
    Then(At(Recheck, None), Rechecked, At(Upload, None));
    Then(At(Upload, None), Uploaded, At(Postflight, meta));
    Then(At(Postflight, meta), PostBad({1}), At(Remediate({1}), meta));
  }

  lemma Removing()
    ensures Reached(At(Remediate({}), Some(Migrated({1}, {}))).(target := map[], removed := {1}))
  {
    Publishing();
    hide Reached;
    var one: set<Digest> := {1};
    assert one - {1} == {} && {} + one == one;
    var before := At(Remediate({1}), Some(Migrated({1}, {})));
    assert before.target - {1} == map[];
    Then(before, RemoveBlob(1), At(Remediate({}), before.meta).(target := map[], removed := {1}));
  }

  /** Postflight finds blob 1 bad, the clean-up removes it and then fails: the
      metadata stays behind and names a blob that is gone. */
  lemma CleanUpCanDangle()
    ensures exists s :: Reached(s) && s.attempt.None? && !Complete(s)
  {
    hide Reached;
    var before := At(Remediate({1}), Some(Migrated({1}, {})));
    var gone := At(Remediate({}), before.meta).(target := map[], removed := {1});
    Removing();
    var end := Dropped(gone, gone.attempt.value);
    Then(gone, Fail, end);
    assert 1 in end.meta.value.names - end.meta.value.allowed && 1 !in end.target.Keys;
    assert !Complete(end);
  }

  // ----- resuming -----

  predicate NoRemoval(steps: seq<Step>, from: nat, to: nat)
    requires from <= to <= |steps|
  {
    forall k :: from <= k < to ==> !steps[k].RemoveBlob?
  }

  /** The target only grows, keeps what it has, and what is added is filed under
      the hash of its bytes. */
  predicate Grown(t: Blobs, t': Blobs) {
    && (forall d :: d in t ==> d in t' && t'[d] == t[d])
    && (forall d :: d in t' && d !in t ==> t'[d].hash == d)
  }

  lemma GrowsByStep(s: State, step: Step)
    requires Enabled(s, step) && !step.RemoveBlob?
    ensures Grown(s.target, Do(s, step).target)
  {
    hide Grown;
    if step.PutDone? || step.PutMismatch? || step.OtherPut? || step.Land? {
      PutGrows(s, step);
    } else {
      KeepsTarget(s, step);
    }
  }

  lemma KeepsTarget(s: State, step: Step)
    requires Enabled(s, step) && !step.RemoveBlob?
    requires !step.PutDone? && !step.PutMismatch? && !step.OtherPut? && !step.Land?
    ensures Do(s, step).target == s.target && Grown(s.target, s.target)
  {
    if step.SourceBlob? || step.SourceMeta? || step.OtherMeta? || step.Lease? || step.Begin? {
      OutsideKeepsTarget(s, step);
    } else {
      RunKeepsTarget(s, s.attempt.value, step);
    }
  }

  lemma OutsideKeepsTarget(s: State, step: Step)
    requires Enabled(s, step) && (step.SourceBlob? || step.SourceMeta? || step.OtherMeta? || step.Lease? || step.Begin?)
    ensures Do(s, step).target == s.target
  {
  }

  lemma RunKeepsTarget(s: State, a: Attempt, step: Step)
    requires CanGo(s, a, step) && !step.RemoveBlob? && !step.PutDone? && !step.PutMismatch?
    ensures Go(s, a, step).target == s.target
  {
    hide CanGo;
  }

  lemma PutGrows(s: State, step: Step)
    requires Enabled(s, step) && (step.PutDone? || step.PutMismatch? || step.OtherPut? || step.Land?)
    ensures Grown(s.target, Do(s, step).target)
  {
  }

  /** Over any sequence of runs that are stopped anywhere short of the clean-up,
      the target only grows, by correctly filed blobs. */
  lemma {:induction false} TargetOnlyGrows(states: seq<State>, steps: seq<Step>, from: nat, to: nat)
    requires Run(states, steps) && from <= to < |states| && NoRemoval(steps, from, to)
    ensures Grown(states[from].target, states[to].target)
  {
    hide Do, Enabled;
    if from < to {
      TargetOnlyGrows(states, steps, from, to - 1);
      GrowsByStep(states[to - 1], steps[to - 1]);
      assert states[to] == Do(states[to - 1], steps[to - 1]);
    }
  }

  lemma AbsentStep(s: State, step: Step, d: Digest)
    requires Enabled(s, step) && d in s.target && (s.attempt.Some? ==> d !in s.attempt.value.dstMissing)
    ensures Do(s, step).attempt.Some? ==> d !in Do(s, step).attempt.value.dstMissing
  {
  }

  /** A run plans to copy only what the target lacks: nothing present since
      before it began. */
  lemma {:induction false} PlansOnlyAbsent(states: seq<State>, steps: seq<Step>, from: nat, n: nat, d: Digest)
    requires Run(states, steps) && from <= n < |states| && NoRemoval(steps, from, n)
    requires states[from].attempt.None? && d in states[from].target
    ensures d in states[n].target && (states[n].attempt.Some? ==> d !in states[n].attempt.value.dstMissing)
  {
    hide Do, Enabled;
    if from < n {
      PlansOnlyAbsent(states, steps, from, n - 1, d);
      GrowsByStep(states[n - 1], steps[n - 1]);
      AbsentStep(states[n - 1], steps[n - 1], d);
      assert states[n] == Do(states[n - 1], steps[n - 1]);
    }
  }

  /** Resuming: a blob copied by one run is not copied again by a later one. */
  lemma CopiedIsNotCopiedAgain(states: seq<State>, steps: seq<Step>, first: nat, begin: nat, n: nat, d: Digest)
    requires Run(states, steps) && Init(states[0]) && first < begin < n < |steps| && NoRemoval(steps, first, n)
    requires steps[first] == PutDone(d) && steps[begin].Begin?
    ensures steps[n] != PutDone(d)
  {
    TargetOnlyGrows(states, steps, first + 1, begin);
    PlansOnlyAbsent(states, steps, begin, n, d);
    RunInv(states, steps, n);
    assert steps[n] == PutDone(d) ==> d in Missing(states[n].attempt.value);
  }

  // ----- conservation -----

  lemma {:induction false} DistinctCount(done: seq<Body>, ds: set<Digest>)
    requires forall i, j :: 0 <= i < j < |done| ==> done[i].hash != done[j].hash
    requires forall d :: d in ds <==> Counted(done, d)
    ensures |done| == |ds|
  {
    if done == [] {
      assert ds == {};
    } else {
      var init, last := done[..|done| - 1], done[|done| - 1];
      assert done == init + [last];
      forall d
        ensures Counted(done, d) <==> Counted(init, d) || last.hash == d
      {
        CountedAppend(init, last, d);
      }
      assert !Counted(init, last.hash);
      DistinctCount(init, ds - {last.hash});
    }
  }

  /** What the counts of a plan add up to. */
  lemma SkippedIsPresentOrBroken(a: Attempt)
    requires Probed(a)
    ensures |a.names| - |Missing(a)| == |a.names.Keys - a.dstMissing| + |a.dstMissing * a.srcMissing|
  {
    var present, broken := a.names.Keys - a.dstMissing, a.dstMissing * a.srcMissing;
    assert a.names.Keys == Missing(a) + (present + broken);
    assert |a.names| == |a.names.Keys|;
    assert |present + broken| == |present| + |broken|;
  }

  /** A successful run reports exactly the planned copies, each made once, the
      bytes they hold, and everything else as skipped: present already, or
      missing on both sides. */
  lemma Conservation(states: seq<State>, steps: seq<Step>, n: nat)
    requires Run(states, steps) && Init(states[0]) && n < |steps| && steps[n].PostOk?
    ensures states[n + 1].outcome.Some? && states[n + 1].outcome.value.Finished?
    ensures var a, r := states[n].attempt.value, states[n + 1].outcome.value.report;
            && r.copied + r.skipped == r.required == |a.names| && r.metaCopied
            && r.copied == |Missing(a)| == |a.done| && r.bytes == Sum(a.done)
            && (forall d :: d in Missing(a) <==> Counted(a.done, d))
            && r.skipped == |a.names.Keys - a.dstMissing| + |a.dstMissing * a.srcMissing|
  {
    RunInv(states, steps, n);
    var a := states[n].attempt.value;
    DistinctCount(a.done, Missing(a));
    SkippedIsPresentOrBroken(a);
  }

  /** A dry run never gets past its plan. */
  predicate DryInv(s: State) {
    s.attempt.Some? && s.attempt.value.opts.dryRun ==> s.attempt.value.stage.ProbeSource? || s.attempt.value.stage.ProbeTarget?
  }

  lemma DryStep(s: State, step: Step)
    requires DryInv(s) && Enabled(s, step)
    ensures DryInv(Do(s, step))
    ensures s.attempt.Some? && s.attempt.value.opts.dryRun && Undisturbed(step) ==>
              Do(s, step).target == s.target && Do(s, step).meta == s.meta
  {
    if s.attempt.Some? && s.attempt.value.opts.dryRun {
      DryStepOfRun(s, step);
    } else {
      OtherStaysDry(s, step);
    }
  }

  lemma DryStepOfRun(s: State, step: Step)
    requires DryInv(s) && Enabled(s, step) && s.attempt.Some? && s.attempt.value.opts.dryRun
    ensures DryInv(Do(s, step))
    ensures Undisturbed(step) ==> Do(s, step).target == s.target && Do(s, step).meta == s.meta
  {
    Dispatch(s, step);
    if !IsOutside(step) && !step.Begin? {
      hide Do, Enabled, CanGo;
      StagesAllow(s, s.attempt.value, step);
      DryGo(s, s.attempt.value, step);
    }
  }

  lemma DryGo(s: State, a: Attempt, step: Step)
    requires CanGo(s, a, step) && a.opts.dryRun && (a.stage.ProbeSource? || a.stage.ProbeTarget?)
    requires step.Fail? || step.ProbedSource? || step.SourceProbed? || step.ProbedTarget? || step.Planned?
    ensures Go(s, a, step).target == s.target && Go(s, a, step).meta == s.meta && DryInv(Go(s, a, step))
  {
    hide CanGo;
  }

  lemma OtherStaysDry(s: State, step: Step)
    requires Enabled(s, step) && (s.attempt.Some? ==> !s.attempt.value.opts.dryRun)
    ensures DryInv(Do(s, step))
  {
  }

  lemma {:induction false} RunDryInv(states: seq<State>, steps: seq<Step>, n: nat)
    requires Run(states, steps) && Init(states[0]) && n < |states|
    ensures DryInv(states[n])
  {
    hide Do, Enabled, DryInv;
    if n > 0 {
      RunDryInv(states, steps, n - 1);
      DryStep(states[n - 1], steps[n - 1]);
    } else {
      InitIsDry(states[0]);
    }
  }

  lemma InitIsDry(s: State)
    requires Init(s)
    ensures DryInv(s)
  {
  }

  /** No step of a dry run, from its beginning to its end, changes the target's
      blobs or metadata. */
  lemma DryRunWritesNothing(states: seq<State>, steps: seq<Step>, n: nat)
    requires Run(states, steps) && Init(states[0]) && n < |steps| && Undisturbed(steps[n])
    requires states[n].attempt.Some? && states[n].attempt.value.opts.dryRun
    ensures states[n + 1].target == states[n].target && states[n + 1].meta == states[n].meta
  {
    hide DryInv;
    RunDryInv(states, steps, n);
    DryStep(states[n], steps[n]);
  }

  /** A dry run reports what a run would copy, and copies nothing. */
  lemma DryRunPredicts(states: seq<State>, steps: seq<Step>, n: nat)
    requires Run(states, steps) && Init(states[0]) && n < |steps|
    requires steps[n].Planned? && states[n].attempt.value.opts.dryRun
    ensures states[n + 1].outcome.Some? && states[n + 1].outcome.value.Finished?
    ensures states[n + 1].target == states[n].target && states[n + 1].meta == states[n].meta
    ensures var a, r := states[n].attempt.value, states[n + 1].outcome.value.report;
            && r.copied + r.skipped == r.required && r.copied == |Missing(a)| && !r.metaCopied
            && r.bytes == SumRecorded(a.names, steps[n].order) && Enumerates(steps[n].order, Missing(a))
            && r.skipped == |a.names.Keys - a.dstMissing| + |a.dstMissing * a.srcMissing|
  {
    RunInv(states, steps, n);
    SkippedIsPresentOrBroken(states[n].attempt.value);
  }
}
