/** The poller as it runs: loops over listings that update the memory of handled
    updates, the memory of fired reminders, and the record of posts. */
module PollerObject {
  import opened Wrappers
  import opened DedupMemory
  import P = Poller
  import R = Reminders

  class ReminderTracker {
    var fired: set<R.Key>

    constructor ()
      ensures fired == {}
    {
      fired := {};
    }

    predicate ShouldFire(arn: string, offset: nat)
      reads this
    {
      (arn, offset) !in fired
    }

    method MarkFired(arn: string, offset: nat)
      modifies this
      ensures fired == old(fired) + {(arn, offset)}
    {
      fired := fired + {(arn, offset)};
    }

    /** Forgets the reminders of events that are no longer listed. */
    method RetainRelevant(us: seq<R.Upcoming>)
      modifies this
      ensures fired == R.Retain(old(fired), us)
    {
      var live: set<string> := {};
      for i := 0 to |us|
        invariant fired == old(fired)
        invariant forall arn :: arn in live <==> R.Lists(us[..i], arn)
      {
        ListsMore(us, i);
        live := live + {us[i].arn};
      }
      assert us[..|us|] == us;
      fired := set key | key in fired && key.0 in live;
    }
  }

  lemma ListsMore(us: seq<R.Upcoming>, i: nat)
    requires i < |us|
    ensures forall arn :: R.Lists(us[..i + 1], arn) <==> R.Lists(us[..i], arn) || us[i].arn == arn
  {
    forall arn | R.Lists(us[..i], arn)
      ensures R.Lists(us[..i + 1], arn)
    {
      var j :| 0 <= j < i && us[j].arn == arn;
      assert us[..i + 1][j].arn == arn;
    }
    assert us[..i + 1][i].arn == us[i].arn;
  }

  /** What one cycle of the loop meets. */
  datatype Input = Input(cycle: P.Cycle, pollOk: bool, reminders: R.Poll)

  class Poller {
    const dedup: Dedup
    const tracker: ReminderTracker
    const offsets: seq<nat>
    const coldStart: bool
    var log: seq<P.Entry>
    var posts: seq<R.Post>
    var turns: nat
    var cursor: int
    var firstRun: bool

    constructor (offsets: seq<nat>, coldStart: bool, now: int, lookback: int)
      ensures this.offsets == offsets && this.coldStart == coldStart
      ensures fresh(dedup) && fresh(tracker) && Memory() == P.Memory(map[], []) && Reminded() == R.Tracker({}, [])
      ensures cursor == now - lookback && firstRun && turns == 0
    {
      dedup := new Dedup();
      tracker := new ReminderTracker();
      this.offsets, this.coldStart := offsets, coldStart;
      log, posts, turns, cursor, firstRun := [], [], 0, now - lookback, true;
    }

    ghost function Memory(): P.Memory
      reads this, dedup
    {
      P.Memory(dedup.seen, log)
    }

    ghost function Reminded(): R.Tracker
      reads this, tracker
    {
      R.Tracker(tracker.fired, posts)
    }

    /** Handles every listed update in order; each decision and the memory are
        those of the specification. */
    method PollOnce(items: seq<P.Item>, suppress: bool)
      modifies this`log, dedup
      ensures Memory() == P.HandleAll(old(Memory()), items, suppress)
    {
      for i := 0 to |items|
        invariant Memory() == P.HandleAll(old(Memory()), items[..i], suppress)
      {
        assert items[..i + 1][..i] == items[..i];
        var item := items[i];
        var fresh' := dedup.Fresh(item.arn, item.updated);
        var posted := false;
        if fresh' {
          if suppress {
            dedup.MarkProcessed(item.arn, item.updated, item.at);
          } else {
            match item.verdict
            case HydrateFailed =>
            case Denied =>
              dedup.MarkProcessed(item.arn, item.updated, item.at);
            case Published =>
              posted := true;
              dedup.MarkProcessed(item.arn, item.updated, item.at);
            case PublishFailed =>
          }
        }
        log := log + [P.Entry(item.arn, item.updated, fresh', posted)];
      }
      assert items[..|items|] == items;
    }

    method EvaluateReminder(u: R.Upcoming, p: R.Poll)
      modifies this`posts, tracker
      ensures Reminded() == R.Evaluate(old(Reminded()), u, p, turns, offsets)
    {
      if u.start.None? {
        return;
      }
      if !u.hasEnd {
        return;
      }
      var untilStart := u.start.value - p.now;
      if untilStart <= 0 {
        return;
      }
      for i := 0 to |offsets|
        invariant (Reminded(), true) == R.TryOffsets(old(Reminded()), u, p, turns, offsets, i)
      {
        var offset := offsets[i];
        ghost var before := Reminded();
        if untilStart <= offset * HOUR && tracker.ShouldFire(u.arn, offset) {
          if p.suppress || !u.allowed {
            tracker.MarkFired(u.arn, offset);
          } else {
            match u.tries(i)
            case HydrateFailed =>
              Stopped(old(Reminded()), u, p, turns, offsets, i + 1, |offsets|);
              return;
            case PublishFailed =>
            case Published =>
              posts := posts + [R.Post(turns, u.arn, offset, p.now, u.start.value)];
              tracker.MarkFired(u.arn, offset);
          }
        }
        assert (Reminded(), true) == R.TryOffset(before, u, p, turns, offset, i);
      }
    }

    method PollReminders(p: R.Poll) returns (ok: bool)
      modifies this`posts, tracker
      ensures Reminded() == R.DoPoll(old(Reminded()), p, turns, offsets)
      ensures ok <==> R.AllZero(offsets) || p.listing.Some?
    {
      var maxOffset := MaxOffset(offsets);
      if maxOffset == 0 {
        return true;
      }
      if p.listing.None? {
        return false;
      }
      var us := p.listing.value;
      for i := 0 to |us|
        invariant Reminded() == R.EvaluateAll(old(Reminded()), us[..i], p, turns, offsets)
      {
        assert us[..i + 1][..i] == us[..i];
        EvaluateReminder(us[i], p);
      }
      assert us[..|us|] == us;
      tracker.RetainRelevant(us);
      ok := true;
    }

    /** One turn of the loop: the cursor advances whether or not the cycle failed. */
    method Turn(input: Input)
      modifies this, dedup, tracker
      ensures cursor == input.cycle.to && !firstRun && turns == old(turns) + 1
      ensures var suppress := old(firstRun) && coldStart;
              var m := P.HandleAll(old(Memory()), if input.pollOk then input.cycle.items else [], suppress);
              Memory() == m.(seen := Prune(m.seen, input.cycle.end - PRUNE_AFTER))
      ensures Reminded() == R.DoPoll(old(Reminded()), ReminderPoll(input, old(firstRun) && coldStart), old(turns), offsets)
    {
      var suppress := firstRun && coldStart;
      if input.pollOk {
        PollOnce(input.cycle.items, suppress);
        if offsets != [] {
          var ok := PollReminders(ReminderPoll(input, suppress));
        }
      }
      turns := turns + 1;
      cursor := input.cycle.to;
      firstRun := false;
      dedup.PruneOlderThan(PRUNE_AFTER, input.cycle.end);
    }
  }

  /** The reminder poll of a turn: none takes place after a failed listing. */
  function ReminderPoll(input: Input, suppress: bool): R.Poll {
    R.Poll(if input.pollOk then input.reminders.listing else None, input.reminders.now, suppress)
  }

  function ReminderPolls(inputs: seq<Input>, coldStart: bool): (polls: seq<R.Poll>)
    ensures |polls| == |inputs|
  {
    seq(|inputs|, i requires 0 <= i < |inputs| => ReminderPoll(inputs[i], P.Suppressed(i, coldStart)))
  }

  /** Cycles as they took effect: a failed listing handles nothing. */
  function Effective(inputs: seq<Input>): (cycles: seq<P.Cycle>)
    ensures |cycles| == |inputs|
  {
    seq(|inputs|, i requires 0 <= i < |inputs| =>
      if inputs[i].pollOk then inputs[i].cycle else inputs[i].cycle.(items := []))
  }

  /** The whole loop leaves both memories and the posts as the specifications give
      them for its cycles, whatever failed on the way. */
  method RunLoop(poller: Poller, inputs: seq<Input>)
    requires poller.firstRun && poller.turns == 0
    requires poller.Memory() == P.Memory(map[], []) && poller.Reminded() == R.Tracker({}, [])
    modifies poller, poller.dedup, poller.tracker
    ensures poller.Memory() == P.After(Effective(inputs), poller.coldStart, true)
    ensures poller.Reminded() == R.After(ReminderPolls(inputs, poller.coldStart), poller.offsets)
    ensures inputs != [] ==> poller.cursor == inputs[|inputs| - 1].cycle.to
  {
    var cycles, polls := Effective(inputs), ReminderPolls(inputs, poller.coldStart);
    for n := 0 to |inputs|
      invariant (poller.firstRun <==> n == 0) && poller.turns == n
      invariant poller.Reminded() == R.After(polls[..n], poller.offsets)
      invariant poller.Memory() == P.After(cycles[..n], poller.coldStart, true)
      invariant n > 0 ==> poller.cursor == inputs[n - 1].cycle.to
    {
      hide P.After, R.After;
      AfterMore(cycles, poller.coldStart, n);
      RemindedMore(polls, poller.offsets, n);
      poller.Turn(inputs[n]);
    }
    assert cycles[..|inputs|] == cycles && polls[..|inputs|] == polls;
  }

  lemma AfterMore(cycles: seq<P.Cycle>, coldStart: bool, n: nat)
    requires n < |cycles|
    ensures var m := P.HandleAll(P.After(cycles[..n], coldStart, true), cycles[n].items, P.Suppressed(n, coldStart));
            P.After(cycles[..n + 1], coldStart, true) == m.(seen := Prune(m.seen, cycles[n].end - PRUNE_AFTER))
  {
    assert cycles[..n + 1][..n] == cycles[..n];
  }

  lemma RemindedMore(polls: seq<R.Poll>, offsets: seq<nat>, n: nat)
    requires n < |polls|
    ensures R.After(polls[..n + 1], offsets) == R.DoPoll(R.After(polls[..n], offsets), polls[n], n, offsets)
  {
    assert polls[..n + 1][..n] == polls[..n];
  }

  /** Once a look-up fails, the remaining offsets are left alone. */
  lemma {:induction false} Stopped(t: R.Tracker, u: R.Upcoming, p: R.Poll, k: nat, offsets: seq<nat>, m: nat, n: nat)
    requires R.Eligible(u, p.now) && m <= n <= |offsets| && !R.TryOffsets(t, u, p, k, offsets, m).1
    ensures R.TryOffsets(t, u, p, k, offsets, n) == R.TryOffsets(t, u, p, k, offsets, m)
  {
    if m < n {
      Stopped(t, u, p, k, offsets, m, n - 1);
    }
  }

  method MaxOffset(offsets: seq<nat>) returns (max: nat)
    ensures forall i :: 0 <= i < |offsets| ==> offsets[i] <= max
    ensures max == 0 || max in offsets
  {
    max := 0;
    for i := 0 to |offsets|
      invariant forall k :: 0 <= k < i ==> offsets[k] <= max
      invariant max == 0 || max in offsets
    {
      if offsets[i] > max {
        max := offsets[i];
      }
    }
  }
}
