/** Interleavings of sync cycles, promotions and demotions on one instance:
    the `is_leader` flag, the lock, and the committed-snapshot slot it guards. */
module Promotion {
  import opened Wrappers

  /** Snapshots are numbered in the order they are committed. */
  type SnapshotId = nat

  datatype Lock =
    | Free
    | Checking                               // a cycle got the lock, flag not read yet
    | Working                                // a cycle saw `is_leader == false`
    | Promoting(p: nat, taken: Option<SnapshotId>)

  datatype State = State(
    isLeader: bool,
    lock: Lock,
    slot: Option<SnapshotId>,
    waiting: set<nat>,                       // promotions that set the flag and wait for the lock
    next: SnapshotId,
    applied: seq<SnapshotId>)                // snapshots handed to the database swap, in order

  datatype Step =
    | SyncLock
    | SyncCheck
    | SyncTouch                              // downloads, fetches or deletes blobs
    | SyncCommit
    | SyncFail
    | PromoteStore(p: nat)
    | PromoteLock(p: nat)
    | PromoteReturn(p: nat)
    | Demote

  predicate Enabled(s: State, step: Step) {
    match step
    case SyncLock => s.lock.Free?
    case SyncCheck => s.lock.Checking?
    case SyncTouch => s.lock.Working?
    case SyncCommit => s.lock.Working?
    case SyncFail => s.lock.Working?
    case PromoteStore(p) => p !in s.waiting
    case PromoteLock(p) => p in s.waiting && s.lock.Free?
    case PromoteReturn(p) => s.lock.Promoting? && s.lock.p == p
    case Demote => true
  }

  function Do(s: State, step: Step): (s': State)
    requires Enabled(s, step)
  {
    match step
    case SyncLock => s.(lock := Checking)
    case SyncCheck => s.(lock := if s.isLeader then Free else Working)
    case SyncTouch => s
    case SyncCommit => s.(lock := Free, slot := Some(s.next), next := s.next + 1)
    case SyncFail => s.(lock := Free)
    case PromoteStore(p) => s.(isLeader := true, waiting := s.waiting + {p})
    case PromoteLock(p) => s.(lock := Promoting(p, s.slot), slot := None, waiting := s.waiting - {p})
    case PromoteReturn(p) =>
      s.(lock := Free, applied := s.applied + (match s.lock.taken case None => [] case Some(x) => [x]))
    case Demote => s.(isLeader := false)
  }

  predicate Init(s: State) {
    s == State(false, Free, None, {}, 0, [])
  }

  predicate Run(states: seq<State>, steps: seq<Step>) {
    && |states| == |steps| + 1
    && forall i :: 0 <= i < |steps| ==> Enabled(states[i], steps[i]) && states[i + 1] == Do(states[i], steps[i])
  }

  // ----- a promoted instance is left alone until it is demoted -----

  /** A cycle works on the blobs or commits a snapshot. */
  predicate Disturbs(step: Step) {
    step.SyncTouch? || step.SyncCommit?
  }

  predicate NoDemote(steps: seq<Step>) {
    forall i :: 0 <= i < |steps| ==> !steps[i].Demote?
  }

  predicate NoDisturbance(steps: seq<Step>) {
    forall i :: 0 <= i < |steps| ==> !Disturbs(steps[i])
  }

  lemma {:induction false} FlagKeepsCyclesOut(states: seq<State>, steps: seq<Step>, n: nat)
    requires Run(states, steps) && n < |states| && NoDemote(steps)
    requires states[0].isLeader && !states[0].lock.Working?
    ensures states[n].isLeader && !states[n].lock.Working?
  {
    if n > 0 {
      FlagKeepsCyclesOut(states, steps, n - 1);
      assert !steps[n - 1].Demote?;
    }
  }

  /** From the moment a promotion returns, no cycle touches the blobs or commits
      a snapshot before the next demotion exactly if the flag is still set then,
      that is, unless a demotion overtook the promotion. */
  lemma ProtectedExactly(s: State, p: nat)
    requires Enabled(s, PromoteReturn(p))
    ensures s.isLeader <==>
            forall states, steps :: Run(states, steps) && states[0] == Do(s, PromoteReturn(p)) && NoDemote(steps) ==>
              NoDisturbance(steps)
  {
    var returned := Do(s, PromoteReturn(p));
    if s.isLeader {
      forall states: seq<State>, steps: seq<Step> | Run(states, steps) && states[0] == returned && NoDemote(steps)
        ensures NoDisturbance(steps)
      {
        forall i | 0 <= i < |steps|
          ensures !Disturbs(steps[i])
        {
          FlagKeepsCyclesOut(states, steps, i);
        }
      }
    } else {
      OvertakenPromotionIsDisturbed(returned);
    }
  }

  lemma OvertakenPromotionIsDisturbed(s: State)
    requires !s.isLeader && s.lock.Free?
    ensures exists states, steps :: Run(states, steps) && states[0] == s && NoDemote(steps) && !NoDisturbance(steps)
  {
    var states := [s, s.(lock := Checking), s.(lock := Working), s.(lock := Working)];
    var steps := [SyncLock, SyncCheck, SyncTouch];
    assert Run(states, steps) && states[0] == s && NoDemote(steps);
    assert Disturbs(steps[2]);
  }

  /** The flag is set when a promotion returns if nothing demoted the instance
      since that promotion began. */
  lemma {:induction false} FlagSurvives(states: seq<State>, steps: seq<Step>, from: nat, to: nat, p: nat)
    requires Run(states, steps) && from < to < |states| && steps[from] == PromoteStore(p)
    requires forall i :: from < i < to ==> !steps[i].Demote?
    ensures states[to].isLeader
  {
    if to > from + 1 {
      FlagSurvives(states, steps, from, to - 1, p);
      assert !steps[to - 1].Demote?;
    }
  }

  /** The last promotion or demotion to touch the flag before `n` is a promotion. */
  predicate PromotedLast(steps: seq<Step>, n: nat)
    requires n <= |steps|
  {
    exists i :: 0 <= i < n && steps[i].PromoteStore? && forall k :: i < k < n ==> !steps[k].Demote?
  }

  /** The flag says exactly whether a promotion touched it last. */
  lemma {:induction false} FlagIsLastTouch(states: seq<State>, steps: seq<Step>, n: nat)
    requires Run(states, steps) && Init(states[0]) && n < |states|
    ensures states[n].isLeader <==> PromotedLast(steps, n)
  {
    if n > 0 {
      FlagIsLastTouch(states, steps, n - 1);
      var step := steps[n - 1];
      if step.PromoteStore? {
        assert PromotedLast(steps, n);
      } else if !step.Demote? && PromotedLast(steps, n - 1) {
        var i :| 0 <= i < n - 1 && steps[i].PromoteStore? && forall k :: i < k < n - 1 ==> !steps[k].Demote?;
        assert steps[i].PromoteStore?;
      }
    }
  }

  /** A returning promotion protects its instance until the next demotion exactly
      if the last promotion or demotion to touch the flag was a promotion. */
  lemma ReturnProtectsExactly(states: seq<State>, steps: seq<Step>, n: nat, p: nat)
    requires Run(states, steps) && Init(states[0]) && n < |steps| && steps[n] == PromoteReturn(p)
    ensures PromotedLast(steps, n) <==>
            forall later, more :: Run(later, more) && later[0] == states[n + 1] && NoDemote(more) ==> NoDisturbance(more)
  {
    FlagIsLastTouch(states, steps, n);
    ProtectedExactly(states[n], p);
  }

  /** Promotion safety for a promotion that is not overtaken. */
  lemma PromotionIsSafe(states: seq<State>, steps: seq<Step>, from: nat, back: nat, n: nat, p: nat)
    requires Run(states, steps) && from < back < n < |steps|
    requires steps[from] == PromoteStore(p) && steps[back] == PromoteReturn(p)
    requires forall i :: from < i <= n ==> !steps[i].Demote?
    ensures !Disturbs(steps[n])
  {
    FlagSurvives(states, steps, from, back, p);
    SafeSuffix(states, steps, back + 1, n);
  }

  lemma {:induction false} SafeSuffix(states: seq<State>, steps: seq<Step>, from: nat, n: nat)
    requires Run(states, steps) && from <= n < |steps|
    requires states[from].isLeader && !states[from].lock.Working?
    requires forall i :: from <= i < n ==> !steps[i].Demote?
    ensures states[n].isLeader && !states[n].lock.Working? && !Disturbs(steps[n])
  {
    if from < n {
      SafeSuffix(states, steps, from, n - 1);
      assert !steps[n - 1].Demote?;
    }
  }

  /** Overtaking happens: a demotion between a promotion's first and last step
      leaves the flag unset when the promotion returns. */
  lemma PromotionCanBeOvertaken() returns (states: seq<State>, steps: seq<Step>)
    ensures Run(states, steps) && Init(states[0])
    ensures |steps| > 0 && steps[|steps| - 1] == PromoteReturn(1) && !states[|steps|].isLeader
  {
    states := [
      State(false, Free, None, {}, 0, []),
      State(true, Free, None, {1}, 0, []),
      State(false, Free, None, {1}, 0, []),
      State(false, Promoting(1, None), None, {}, 0, []),
      State(false, Free, None, {}, 0, [])];
    steps := [PromoteStore(1), Demote, PromoteLock(1), PromoteReturn(1)];
  }

  // ----- snapshots are applied at most once, and never in a later term -----

  predicate Distinct(s: seq<SnapshotId>) {
    forall i, j :: 0 <= i < j < |s| ==> s[i] != s[j]
  }

  predicate SlotInv(s: State) {
    && Distinct(s.applied)
    && (forall i :: 0 <= i < |s.applied| ==> s.applied[i] < s.next)
    && (s.slot.Some? ==> s.slot.value < s.next && s.slot.value !in s.applied)
    && (s.lock.Promoting? && s.lock.taken.Some? ==>
          s.lock.taken.value < s.next && s.lock.taken.value !in s.applied)
    && (s.lock.Promoting? ==> s.slot.None?)
  }

  lemma SlotStep(s: State, step: Step)
    requires SlotInv(s) && Enabled(s, step)
    ensures SlotInv(Do(s, step)) && s.next <= Do(s, step).next && s.applied <= Do(s, step).applied
  {
  }

  lemma {:induction false} RunSlotInv(states: seq<State>, steps: seq<Step>, n: nat)
    requires Run(states, steps) && Init(states[0]) && n < |states|
    ensures SlotInv(states[n])
  {
    if n > 0 {
      RunSlotInv(states, steps, n - 1);
      SlotStep(states[n - 1], steps[n - 1]);
    }
  }

  /** In every interleaving each committed snapshot is applied at most once. */
  lemma AppliedAtMostOnce(states: seq<State>, steps: seq<Step>, n: nat)
    requires Run(states, steps) && Init(states[0]) && n < |states|
    ensures Distinct(states[n].applied)
  {
    RunSlotInv(states, steps, n);
  }

  /** Everything that could still be applied was committed at or after `floor`. */
  predicate FreshFrom(s: State, floor: SnapshotId, done: nat) {
    && floor <= s.next && done <= |s.applied|
    && (s.slot.Some? ==> s.slot.value >= floor)
    && (s.lock.Promoting? && s.lock.taken.Some? ==> s.lock.taken.value >= floor)
    && (forall i :: done <= i < |s.applied| ==> s.applied[i] >= floor)
  }

  lemma {:induction false} StaysFresh(states: seq<State>, steps: seq<Step>, from: nat, n: nat, floor: SnapshotId, done: nat)
    requires Run(states, steps) && from <= n < |states| && FreshFrom(states[from], floor, done)
    ensures FreshFrom(states[n], floor, done)
  {
    if from < n {
      StaysFresh(states, steps, from, n - 1, floor, done);
    }
  }

  /** No stale roll-back: what was committed before a leadership term began is
      never applied after a promotion into that term returned. */
  lemma NoStaleSnapshot(states: seq<State>, steps: seq<Step>, back: nat, n: nat, p: nat)
    requires Run(states, steps) && Init(states[0]) && back < |steps| && back < n < |states|
    requires steps[back] == PromoteReturn(p)
    ensures |states[back + 1].applied| <= |states[n].applied|
    ensures forall i :: |states[back + 1].applied| <= i < |states[n].applied| ==>
              states[n].applied[i] >= states[back + 1].next
  {
    RunSlotInv(states, steps, back);
    var s := states[back + 1];
    StaysFresh(states, steps, back + 1, n, s.next, |s.applied|);
  }
}
