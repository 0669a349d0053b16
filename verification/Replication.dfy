/** Sync cycles of a standby under a live leader: snapshot first, blobs second,
    commit last, while the leader adds, references, unreferences and sweeps
    blobs, and any step of a cycle may fail. Time is in seconds. */
module Replication {
  import opened Wrappers
  import opened BlobPages
  import opened BlobMerge

  /** How long a blob stays unreferenced before the sweeper may reclaim it. */
  const GC_GRACE: int := 24 * 3600

  /** A blob record on the leader; `since` is when it was last unreferenced. */
  datatype Row = Row(referenced: bool, since: int)

  /** The blobs a database snapshot references, and when it was taken. */
  datatype Snapshot = Snapshot(refs: set<Digest>, taken: int)

  datatype Stage = Listing | Deciding(r: Option<Digest>) | Fetching(d: Digest) | Ready

  /** A cycle in progress: its snapshot, the local digests still to merge, the
      cursor over the leader's listing. */
  datatype Cycle = Cycle(snap: Snapshot, locals: seq<Digest>, cursor: Cursor, stage: Stage)

  datatype State = State(
    now: int,
    rows: map<Digest, Row>,            // the leader's blob records; each has its bytes
    local: set<Digest>,                // the standby's blob store
    cycle: Option<Cycle>,
    committed: Option<Snapshot>)

  datatype Step =
    | Tick(dt: nat)
    | AddBlob(d: Digest)
    | Reference(d: Digest)
    | Unreference(d: Digest)
    | Sweep(d: Digest)
    | Begin(locals: seq<Digest>)       // snapshot downloaded, local digests walked
    | NextRemote(page: seq<Digest>)
    | Merge
    | Fetched
    | FetchMissing
    | FetchCorrupt(got: Digest)        // a wrong body, removed again
    | FetchStuck(got: Digest)          // a wrong body that could not be removed
    | Abort
    | Commit

  predicate Enabled(s: State, step: Step) {
    match step
    case Tick(_) => true
    case AddBlob(d) => d !in s.rows
    case Reference(d) => d in s.rows
    case Unreference(d) => d in s.rows && s.rows[d].referenced
    case Sweep(d) => d in s.rows && !s.rows[d].referenced && s.now - s.rows[d].since >= GC_GRACE
    case Begin(locals) => s.cycle.None? && Increasing(locals) && ToSet(locals) == s.local
    case _ => s.cycle.Some? && CycleEnabled(s, s.cycle.value, step)
  }

  predicate CycleEnabled(s: State, c: Cycle, step: Step) {
    if step.NextRemote? then c.stage.Listing? && (NeedsPage(c.cursor) ==> IsPage(s.rows.Keys, c.cursor.after, step.page))
    else if step.Merge? then c.stage.Deciding?
    else if step.Fetched? then c.stage.Fetching? && c.stage.d in s.rows
    else if step.FetchMissing? then c.stage.Fetching? && c.stage.d !in s.rows
    else if step.FetchCorrupt? || step.FetchStuck? then c.stage.Fetching? && step.got != c.stage.d
    else if step.Commit? then c.stage.Ready?
    else step.Abort?
  }

  function Referenced(rows: map<Digest, Row>): set<Digest> {
    set d | d in rows && rows[d].referenced
  }

  function WithCycle(s: State, c: Cycle): State {
    s.(cycle := Some(c))
  }

  function Do(s: State, step: Step): (s': State)
    requires Enabled(s, step)
  {
    match step
    case Tick(dt) => s.(now := s.now + dt)
    case AddBlob(d) => s.(rows := s.rows[d := Row(false, s.now)])
    case Reference(d) => s.(rows := s.rows[d := s.rows[d].(referenced := true)])
    case Unreference(d) => s.(rows := s.rows[d := Row(false, s.now)])
    case Sweep(d) => s.(rows := s.rows - {d})
    case Begin(locals) =>
      WithCycle(s, Cycle(Snapshot(Referenced(s.rows), s.now), locals, START, Listing))
    case NextRemote(page) =>
      var c := s.cycle.value;
      var (cursor, r) := Next(c.cursor, Success(page));
      WithCycle(s, c.(cursor := cursor, stage := Deciding(if r.Success? then r.value else None)))
    case Merge => DoMerge(s)
    case Fetched => WithCycle(s, s.cycle.value.(stage := Listing)).(local := s.local + {s.cycle.value.stage.d})
    case FetchMissing => WithCycle(s, s.cycle.value.(stage := Listing))
    case FetchCorrupt(got) => s.(local := (s.local + {got}) - {got}, cycle := None)
    case FetchStuck(got) => s.(local := s.local + {got}, cycle := None)
    case Abort => s.(cycle := None)
    case Commit => s.(cycle := None, committed := Some(s.cycle.value.snap))
  }

  function DoMerge(s: State): (s': State)
    requires Enabled(s, Merge)
  {
    var c := s.cycle.value;
    match Decide(if c.locals == [] then None else Some(c.locals[0]), c.stage.r)
    case Done => WithCycle(s, c.(stage := Ready))
    case Fetch(d) => WithCycle(s, c.(stage := Fetching(d)))
    case Delete(d) => WithCycle(s, c.(locals := c.locals[1..])).(local := s.local - {d})
    case Skip => WithCycle(s, c.(locals := c.locals[1..], stage := Listing))
  }

  predicate Init(s: State) {
    s.cycle.None? && s.committed.None? && forall d :: d in s.rows ==> s.rows[d].since <= s.now
  }

  predicate Run(states: seq<State>, steps: seq<Step>) {
    && |states| == |steps| + 1
    && forall i :: 0 <= i < |steps| ==> Enabled(states[i], steps[i]) && states[i + 1] == Do(states[i], steps[i])
  }

  /** A wrong body does harm exactly when it hashes to a blob that the committed
      snapshot references: the clean-up then removes that blob. */
  predicate Harmless(s: State, step: Step) {
    step.FetchCorrupt? && s.committed.Some? && Young(s.committed.value, s.now) ==>
      step.got !in s.committed.value.refs
  }

  // ----- the invariant -----

  predicate Young(snap: Snapshot, now: int) {
    now < snap.taken + GC_GRACE
  }

  /** While a snapshot is young the leader keeps everything it references. */
  predicate Kept(s: State, snap: Snapshot) {
    snap.taken <= s.now &&
    (Young(snap, s.now) ==>
       forall d :: d in snap.refs ==> d in s.rows && (s.rows[d].referenced || s.rows[d].since >= snap.taken))
  }

  /** The listing has yet to deliver `d` to the merge, or just did. */
  predicate Pending(c: Cycle, d: Digest) {
    match c.stage
    case Listing => Ahead(c.cursor, d)
    case Deciding(r) => r == Some(d) || Ahead(c.cursor, d)
    case Fetching(f) => f == d || Ahead(c.cursor, d)
    case Ready => false
  }

  predicate CycleShape(s: State, c: Cycle) {
    && CursorInv(c.cursor)
    && Increasing(c.locals) && (forall d :: d in c.locals ==> d in s.local)
    && (match c.stage
        case Listing => true
        case Deciding(r) =>
          if r.Some? then r.value == c.cursor.after else c.cursor.done && c.cursor.buf == []
        case Fetching(d) => d == c.cursor.after && (c.locals != [] ==> d < c.locals[0])
        case Ready => c.locals == [] && c.cursor.done && c.cursor.buf == [])
  }

  /** The merge will not delete any of `refs`: those still among the local
      digests to be merged are still to come from the listing as well. */
  predicate Spared(c: Cycle, refs: set<Digest>) {
    forall d :: d in refs && d in c.locals ==> Pending(c, d)
  }

  /** What the listing already delivered of `refs` is stored. */
  predicate Covered(s: State, c: Cycle, refs: set<Digest>) {
    forall d :: d in refs && !Pending(c, d) ==> d in s.local
  }

  predicate CycleInv(s: State, c: Cycle) {
    && CycleShape(s, c)
    && Kept(s, c.snap)
    && (Young(c.snap, s.now) ==> Spared(c, c.snap.refs) && Covered(s, c, c.snap.refs))
  }

  predicate CommittedInv(s: State, snap: Snapshot) {
    && Kept(s, snap)
    && (Young(snap, s.now) ==> snap.refs <= s.local)
    && (Young(snap, s.now) && s.cycle.Some? ==> Spared(s.cycle.value, snap.refs))
  }

  predicate Inv(s: State) {
    && (forall d :: d in s.rows ==> s.rows[d].since <= s.now)
    && (s.cycle.Some? ==> CycleInv(s, s.cycle.value))
    && (s.committed.Some? ==> CommittedInv(s, s.committed.value))
  }

  // ----- every step keeps it -----

  /** Steps of the leader: what is young stays on the leader. */
  lemma LeaderStepKeeps(s: State, step: Step, snap: Snapshot)
    requires Kept(s, snap) && Enabled(s, step)
    ensures Kept(Do(s, step), snap)
  {
  }

  predicate IsLeaderStep(step: Step) {
    step.Tick? || step.AddBlob? || step.Reference? || step.Unreference? || step.Sweep?
  }

  lemma LeaderStep(s: State, step: Step)
    requires Inv(s) && Enabled(s, step) && IsLeaderStep(step)
    ensures Inv(Do(s, step))
  {
    if s.cycle.Some? {
      LeaderStepKeeps(s, step, s.cycle.value.snap);
    }
    if s.committed.Some? {
      LeaderStepKeeps(s, step, s.committed.value);
    }
  }

  lemma BeginStep(s: State, step: Step)
    requires Inv(s) && Enabled(s, step) && step.Begin?
    ensures Inv(Do(s, step))
  {
  }

  /** Moving the cursor on loses sight of no digest the leader holds. */
  lemma NextRemotePending(s: State, c: Cycle, page: seq<Digest>, d: Digest)
    requires CycleShape(s, c) && CycleEnabled(s, c, NextRemote(page)) && d in s.rows && Pending(c, d)
    ensures Pending(Do(s.(cycle := Some(c)), NextRemote(page)).cycle.value, d)
  {
    NextKeepsAhead(c.cursor, s.rows.Keys, page);
  }

  lemma NextRemoteStep(s: State, step: Step)
    requires Inv(s) && Enabled(s, step) && step.NextRemote?
    ensures Inv(Do(s, step))
  {
    var c, s' := s.cycle.value, Do(s, step);
    NextKeepsAhead(c.cursor, s.rows.Keys, step.page);
    assert s.(cycle := Some(c)) == s;
    if Young(c.snap, s.now) {
      forall d | d in c.snap.refs && Pending(c, d)
        ensures Pending(s'.cycle.value, d)
      {
        NextRemotePending(s, c, step.page, d);
      }
    }
    if s.committed.Some? && Young(s.committed.value, s.now) {
      forall d | d in s.committed.value.refs && Pending(c, d)
        ensures Pending(s'.cycle.value, d)
      {
        NextRemotePending(s, c, step.page, d);
      }
    }
  }

  lemma AheadIsLater(c: Cursor, d: Digest)
    requires CursorInv(c) && Ahead(c, d)
    ensures c.after < d
  {
    assert c.buf != [] ==> c.buf[|c.buf| - 1] in c.buf;
  }

  /** The merge deletes a local digest only when the listing has passed it. */
  lemma DeletedIsPassed(s: State, c: Cycle, d: Digest)
    requires CycleShape(s, c) && c.stage.Deciding? && c.locals != []
    requires Decide(Some(c.locals[0]), c.stage.r) == Delete(d)
    ensures d == c.locals[0] && !Pending(c, d)
  {
    if Ahead(c.cursor, d) {
      AheadIsLater(c.cursor, d);
    }
  }

  lemma MergeDeletes(s: State, d: Digest)
    requires Inv(s) && Enabled(s, Merge) && s.cycle.value.locals != []
    requires Decide(Some(s.cycle.value.locals[0]), s.cycle.value.stage.r) == Delete(d)
    ensures Inv(DoMerge(s))
  {
    var c := s.cycle.value;
    DeletedIsPassed(s, c, d);
    assert c.locals == [d] + c.locals[1..] && d !in c.locals[1..];
  }

  lemma MergeSkips(s: State)
    requires Inv(s) && Enabled(s, Merge) && s.cycle.value.locals != []
    requires Decide(Some(s.cycle.value.locals[0]), s.cycle.value.stage.r) == Skip
    ensures Inv(DoMerge(s))
  {
    var c := s.cycle.value;
    assert c.locals == [c.locals[0]] + c.locals[1..] && c.locals[0] !in c.locals[1..];
  }

  lemma MergeMoves(s: State)
    requires Inv(s) && Enabled(s, Merge)
    requires var c := s.cycle.value;
             var m := Decide(if c.locals == [] then None else Some(c.locals[0]), c.stage.r);
             m.Done? || m.Fetch?
    ensures Inv(DoMerge(s))
  {
  }

  lemma FetchStep(s: State, step: Step)
    requires Inv(s) && Enabled(s, step) && (step.Fetched? || step.FetchMissing?)
    ensures Inv(Do(s, step))
  {
    var c := s.cycle.value;
    assert c.stage.d !in c.locals;
  }

  lemma EndStep(s: State, step: Step)
    requires Inv(s) && Enabled(s, step) && Harmless(s, step) && (step.FetchCorrupt? || step.FetchStuck? || step.Abort? || step.Commit?)
    ensures Inv(Do(s, step))
  {
  }

  lemma StepInv(s: State, step: Step)
    requires Inv(s) && Enabled(s, step) && Harmless(s, step)
    ensures Inv(Do(s, step))
  {
    hide Inv;
    if IsLeaderStep(step) {
      LeaderStep(s, step);
    } else if step.Begin? {
      BeginStep(s, step);
    } else if step.NextRemote? {
      NextRemoteStep(s, step);
    } else if step.Merge? {
      MergeStepInv(s);
    } else if step.Fetched? || step.FetchMissing? {
      FetchStep(s, step);
    } else {
      EndStep(s, step);
    }
  }

  lemma MergeStepInv(s: State)
    requires Inv(s) && Enabled(s, Merge)
    ensures Inv(DoMerge(s))
  {
    hide Inv;
    var c := s.cycle.value;
    match Decide(if c.locals == [] then None else Some(c.locals[0]), c.stage.r)
    case Delete(d) => MergeDeletes(s, d);
    case Skip => MergeSkips(s);
    case _ => MergeMoves(s);
  }

  predicate HarmlessUntil(states: seq<State>, steps: seq<Step>, n: nat)
    requires Run(states, steps) && n < |states|
  {
    forall i :: 0 <= i < n ==> Harmless(states[i], steps[i])
  }

  lemma {:induction false} RunInv(states: seq<State>, steps: seq<Step>, n: nat)
    requires Run(states, steps) && Init(states[0]) && n < |states| && HarmlessUntil(states, steps, n)
    ensures Inv(states[n])
  {
    if n > 0 {
      RunInv(states, steps, n - 1);
      assert Harmless(states[n - 1], steps[n - 1]);
      StepInv(states[n - 1], steps[n - 1]);
    }
  }

  /** The blobs of the committed snapshot are all stored, while it is young. */
  predicate Complete(s: State) {
    s.committed.Some? && Young(s.committed.value, s.now) ==> s.committed.value.refs <= s.local
  }

  /** Committed snapshots are complete. In every run of sync cycles, failing
      wherever they fail, under a leader that changes its blobs meanwhile and
      sweeps a blob only after the grace period, every blob the committed
      snapshot references is stored locally while that snapshot is younger than
      the grace period; unless the leader answered a request with a body that
      hashes to one of those very blobs. */
  lemma CommittedSnapshotIsComplete(states: seq<State>, steps: seq<Step>, n: nat)
    requires Run(states, steps) && Init(states[0]) && n < |states| && HarmlessUntil(states, steps, n)
    ensures Complete(states[n])
  {
    RunInv(states, steps, n);
  }

  /** The exception is exact: as long as no such answer came, a step leaves the
      committed snapshot complete if and only if it is not such an answer. */
  lemma CompleteExactly(states: seq<State>, steps: seq<Step>, n: nat)
    requires Run(states, steps) && Init(states[0]) && n < |steps| && HarmlessUntil(states, steps, n)
    ensures Complete(states[n + 1]) <==> Harmless(states[n], steps[n])
  {
    RunInv(states, steps, n);
    if Harmless(states[n], steps[n]) {
      StepInv(states[n], steps[n]);
    }
  }

  // ----- a run that meets the exception -----

  predicate Goes(s: State, step: Step, s': State) {
    Enabled(s, step) && s' == Do(s, step)
  }

  ghost predicate Reached(s: State) {
    exists states, steps :: Run(states, steps) && Init(states[0]) && states[|steps|] == s
  }

  lemma Then(s: State, step: Step, s': State)
    requires Reached(s) && Goes(s, step, s')
    ensures Reached(s')
  {
    var states: seq<State>, steps: seq<Step> :| Run(states, steps) && Init(states[0]) && states[|steps|] == s;
    var longer, more := states + [s'], steps + [step];
    assert Run(longer, more) && longer[|more|] == s';
  }

  lemma Lists(s: State, c: Cycle, page: seq<Digest>, cursor: Cursor, r: Option<Digest>)
    requires Reached(s) && s.cycle == Some(c) && c.stage.Listing?
    requires NeedsPage(c.cursor) ==> IsPage(s.rows.Keys, c.cursor.after, page)
    requires Next(c.cursor, Success(page)) == (cursor, Success(r))
    ensures Reached(s.(cycle := Some(c.(cursor := cursor, stage := Deciding(r)))))
  {
    hide Reached;
    Then(s, NextRemote(page), s.(cycle := Some(c.(cursor := cursor, stage := Deciding(r)))));
  }

  lemma Merges(s: State, c: Cycle, s': State)
    requires Reached(s) && s.cycle == Some(c) && c.stage.Deciding? && s' == DoMerge(s)
    ensures Reached(s')
  {
    hide Reached;
    Then(s, Merge, s');
  }

  const ONE := map[1 := Row(true, 0)]
  const TWO := map[1 := Row(true, 0), 2 := Row(false, 0)]
  const SNAP := Snapshot({1}, 0)

  lemma Begins(rows: map<Digest, Row>, committed: Option<Snapshot>)
    requires rows == ONE || rows == TWO
    requires Reached(State(0, rows, {1}, None, committed))
    ensures Reached(State(0, rows, {1}, Some(Cycle(SNAP, [1], START, Listing)), committed))
  {
    hide Reached;
    assert Referenced(rows) == {1};
    assert Increasing([1]) && ToSet([1]) == {1};
    Then(State(0, rows, {1}, None, committed), Begin([1]),
         State(0, rows, {1}, Some(Cycle(SNAP, [1], START, Listing)), committed));
  }

  lemma OneBlobListed()
    ensures Reached(State(0, ONE, {1}, Some(Cycle(SNAP, [1], Cursor([], 1, false), Deciding(Some(1)))), None))
  {
    var s := State(0, ONE, {1}, None, None);
    assert Reached(s) by {
      var steps: seq<Step> := [];
      assert Run([s], steps) && Init([s][0]) && [s][|steps|] == s;
    }
    hide Reached;
    Begins(ONE, None);
    var c0 := Cycle(SNAP, [1], START, Listing);
    assert [1][1..] == [];
    Lists(s.(cycle := Some(c0)), c0, [1], Cursor([], 1, false), Some(1));
  }

  /** The standby holds blob 1 and commits a snapshot that references it. */
  lemma OneBlobCommitted()
    ensures Reached(State(0, ONE, {1}, None, Some(SNAP)))
  {
    OneBlobListed();
    hide Reached;
    var s := State(0, ONE, {1}, None, None);
    var c1 := Cycle(SNAP, [1], Cursor([], 1, false), Deciding(Some(1)));
    var c2, c3 := Cycle(SNAP, [], Cursor([], 1, false), Listing), Cursor([], 1, true);
    assert [1][1..] == [];
    Merges(s.(cycle := Some(c1)), c1, s.(cycle := Some(c2)));
    Lists(s.(cycle := Some(c2)), c2, [], c3, None);
    var c4 := Cycle(SNAP, [], c3, Deciding(None));
    Merges(s.(cycle := Some(c4)), c4, s.(cycle := Some(c4.(stage := Ready))));
    Then(s.(cycle := Some(c4.(stage := Ready))), Commit, s.(committed := Some(SNAP)));
  }

  /** Such an answer is possible: the standby asks for a new blob 2, is sent
      blob 1, and the clean-up removes blob 1. */
  lemma WrongBodyLosesBlob()
    ensures exists s :: Reached(s) && !Complete(s)
  {
    OneBlobCommitted();
    hide Reached;
    var s := State(0, TWO, {1}, None, Some(SNAP));
    Then(State(0, ONE, {1}, None, Some(SNAP)), AddBlob(2), s);
    Begins(TWO, Some(SNAP));
    var c0, c1 := Cycle(SNAP, [1], START, Listing), Cursor([2], 1, false);
    assert [1][1..] == [2][1..] == [] && [1, 2][1..] == [2];
    Lists(s.(cycle := Some(c0)), c0, [1, 2], c1, Some(1));
    var c2, c3 := Cycle(SNAP, [], c1, Listing), Cursor([], 2, false);
    Merges(s.(cycle := Some(c0.(cursor := c1, stage := Deciding(Some(1))))), c0.(cursor := c1, stage := Deciding(Some(1))),
           s.(cycle := Some(c2)));
    Lists(s.(cycle := Some(c2)), c2, [], c3, Some(2));
    Merges(s.(cycle := Some(Cycle(SNAP, [], c3, Deciding(Some(2))))), Cycle(SNAP, [], c3, Deciding(Some(2))),
           s.(cycle := Some(Cycle(SNAP, [], c3, Fetching(2)))));
    Then(s.(cycle := Some(Cycle(SNAP, [], c3, Fetching(2)))), FetchCorrupt(1), s.(local := {}));
    assert !Complete(s.(local := {}));
  }
}
