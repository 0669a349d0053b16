/** The health-event poller's main loop: every cycle lists the updates since the
    previous one, posts what is new and passes the filter, and prunes its memory. */
module Poller {
  import opened Wrappers
  import opened DedupMemory

  /** What becomes of a listed update that is new and not suppressed. */
  datatype Verdict = HydrateFailed | Denied | Published | PublishFailed

  /** A listed update, and the time at which it is handled. */
  datatype Item = Item(arn: string, updated: Option<int>, at: int, verdict: Verdict)

  /** One cycle: the time taken at its start, what was listed (nothing if the
      listing failed), and the time at its end. */
  datatype Cycle = Cycle(to: int, items: seq<Item>, end: int)

  /** What happened to one item. */
  datatype Entry = Entry(arn: string, updated: Option<int>, processed: bool, posted: bool)

  datatype Memory = Memory(seen: Seen, log: seq<Entry>)

  /** Handles one item. A failed look-up or post leaves the memory as it is, so
      that the update counts as new again. */
  function Handle(m: Memory, item: Item, suppress: bool): (m': Memory)
    ensures m.log < m'.log && |m'.log| == |m.log| + 1
  {
    var processed := ShouldProcess(m.seen, item.arn, item.updated);
    var posted := processed && !suppress && item.verdict == Published;
    var marks := processed && (suppress || item.verdict == Published || item.verdict == Denied);
    Memory(if marks then Mark(m.seen, item.arn, item.updated, item.at) else m.seen,
           m.log + [Entry(item.arn, item.updated, processed, posted)])
  }

  function HandleAll(m: Memory, items: seq<Item>, suppress: bool): (m': Memory)
    ensures m.log <= m'.log && |m'.log| == |m.log| + |items|
  {
    if items == [] then m
    else Handle(HandleAll(m, items[..|items| - 1], suppress), items[|items| - 1], suppress)
  }

  /** The first cycle only remembers, when the cold start is suppressed. */
  function Suppressed(k: nat, coldStart: bool): bool {
    k == 0 && coldStart
  }

  /** The memory after the cycles, with or without pruning. */
  function After(cycles: seq<Cycle>, coldStart: bool, pruning: bool): Memory {
    if cycles == [] then Memory(map[], [])
    else
      var n := |cycles| - 1;
      var m := HandleAll(After(cycles[..n], coldStart, pruning), cycles[n].items, Suppressed(n, coldStart));
      if pruning then m.(seen := Prune(m.seen, cycles[n].end - PRUNE_AFTER)) else m
  }

  /** Cycle `k` lists updates from here on. */
  function From(start: int, cycles: seq<Cycle>, k: nat): int
    requires k <= |cycles|
  {
    if k == 0 then start else cycles[k - 1].to
  }

  predicate InOrder(c: Cycle) {
    && c.to <= c.end
    && (forall i :: 0 <= i < |c.items| ==> c.to <= c.items[i].at <= c.end)
    && (forall i, j :: 0 <= i < j < |c.items| ==> c.items[i].at <= c.items[j].at)
  }

  /** The clock never goes back. */
  predicate Monotone(start: int, cycles: seq<Cycle>) {
    && (forall k :: 0 <= k < |cycles| ==> InOrder(cycles[k]))
    && (cycles != [] ==> start <= cycles[0].to)
    && (forall k :: 0 <= k < |cycles| - 1 ==> cycles[k].end <= cycles[k + 1].to)
  }

  /** Listings return no update from before `from`. */
  predicate NoneEarlier(start: int, cycles: seq<Cycle>) {
    forall k, i :: 0 <= k < |cycles| && 0 <= i < |cycles[k].items| && cycles[k].items[i].updated.Some? ==>
      From(start, cycles, k) <= cycles[k].items[i].updated.value
  }

  /** Listings return no update from `to` on. */
  predicate NoneLater(cycles: seq<Cycle>) {
    forall k, i :: 0 <= k < |cycles| && 0 <= i < |cycles[k].items| && cycles[k].items[i].updated.Some? ==>
      cycles[k].items[i].updated.value < cycles[k].to
  }

  predicate ShortCycles(cycles: seq<Cycle>) {
    forall k :: 0 <= k < |cycles| ==> cycles[k].end - cycles[k].to <= PRUNE_AFTER
  }

  // ----- pruned memory refines an unbounded one -----

  /** The pruned memory agrees with the full one, except that it may have
      forgotten entries from before `from`. */
  predicate Agrees(pruned: Memory, full: Memory, from: int) {
    && pruned.log == full.log
    && (forall arn :: arn in pruned.seen ==> arn in full.seen && pruned.seen[arn] == full.seen[arn])
    && (forall arn :: arn in full.seen && arn !in pruned.seen ==> full.seen[arn] < from)
  }

  lemma HandleAgrees(pruned: Memory, full: Memory, from: int, item: Item, suppress: bool)
    requires Agrees(pruned, full, from) && (item.updated.Some? ==> from <= item.updated.value)
    ensures Agrees(Handle(pruned, item, suppress), Handle(full, item, suppress), from)
  {
  }

  lemma {:induction false} HandleAllAgrees(pruned: Memory, full: Memory, from: int, items: seq<Item>, suppress: bool)
    requires Agrees(pruned, full, from)
    requires forall i :: 0 <= i < |items| && items[i].updated.Some? ==> from <= items[i].updated.value
    ensures Agrees(HandleAll(pruned, items, suppress), HandleAll(full, items, suppress), from)
  {
    if items != [] {
      var init := items[..|items| - 1];
      HandleAllAgrees(pruned, full, from, init, suppress);
      HandleAgrees(HandleAll(pruned, init, suppress), HandleAll(full, init, suppress), from, items[|items| - 1], suppress);
    }
  }

  /** Pruning after a cycle of at most 72 hours forgets only what is older than
      the next listing. */
  lemma PruneAgrees(pruned: Memory, full: Memory, from: int, to: int, end: int)
    requires Agrees(pruned, full, from) && from <= to && end - to <= PRUNE_AFTER
    ensures Agrees(pruned.(seen := Prune(pruned.seen, end - PRUNE_AFTER)), full, to)
  {
  }

  /** On every run whose clock is monotone, whose listings start where the last
      cycle's ended and whose cycles last at most 72 hours, the pruned memory
      decides about every update exactly as a memory that forgets nothing. */
  lemma {:induction false} PrunedDecidesAsUnbounded(start: int, cycles: seq<Cycle>, coldStart: bool)
    requires Monotone(start, cycles) && NoneEarlier(start, cycles) && ShortCycles(cycles)
    ensures After(cycles, coldStart, true).log == After(cycles, coldStart, false).log
    ensures Agrees(After(cycles, coldStart, true), After(cycles, coldStart, false), From(start, cycles, |cycles|))
  {
    if cycles != [] {
      var n := |cycles| - 1;
      var before := cycles[..n];
      RunPrefix(start, cycles);
      PrunedDecidesAsUnbounded(start, before, coldStart);
      var pruned, full := After(before, coldStart, true), After(before, coldStart, false);
      var c, from := cycles[n], From(start, cycles, n);
      assert from == From(start, before, n);
      HandleAllAgrees(pruned, full, from, c.items, Suppressed(n, coldStart));
      PruneAgrees(HandleAll(pruned, c.items, Suppressed(n, coldStart)), HandleAll(full, c.items, Suppressed(n, coldStart)),
                  from, c.to, c.end);
    }
  }

  lemma RunPrefix(start: int, cycles: seq<Cycle>)
    requires Monotone(start, cycles) && cycles != []
    ensures var before := cycles[..|cycles| - 1];
            && Monotone(start, before) && (ShortCycles(cycles) ==> ShortCycles(before))
            && (NoneEarlier(start, cycles) ==> NoneEarlier(start, before)) && (NoneLater(cycles) ==> NoneLater(before))
            && From(start, cycles, |before|) <= cycles[|before|].to
  {
    var before := cycles[..|cycles| - 1];
    if NoneEarlier(start, cycles) {
      forall k, i | 0 <= k < |before| && 0 <= i < |before[k].items| && before[k].items[i].updated.Some?
        ensures From(start, before, k) <= before[k].items[i].updated.value
      {
        assert cycles[k].items[i].updated.Some?;
        assert From(start, before, k) == From(start, cycles, k);
      }
    }
    if NoneLater(cycles) {
      forall k, i | 0 <= k < |before| && 0 <= i < |before[k].items| && before[k].items[i].updated.Some?
        ensures before[k].items[i].updated.value < before[k].to
      {
        assert cycles[k].items[i].updated.Some?;
      }
    }
  }

  // ----- posts of one event carry increasing update times -----

  predicate IsPost(log: seq<Entry>, i: int, arn: string) {
    0 <= i < |log| && log[i].arn == arn && log[i].posted && log[i].updated.Some?
  }

  predicate Increasing(log: seq<Entry>) {
    forall i, j :: 0 <= i < j < |log| && IsPost(log, i, log[j].arn) && IsPost(log, j, log[j].arn) ==>
      log[i].updated.value < log[j].updated.value
  }

  /** Every stamp is at least every posted update time of its event. */
  predicate Covered(m: Memory) {
    forall i :: 0 <= i < |m.log| && IsPost(m.log, i, m.log[i].arn) ==>
      m.log[i].arn in m.seen && m.log[i].updated.value <= m.seen[m.log[i].arn]
  }

  /** ... and no stamp is in the future. */
  predicate Stamped(m: Memory, now: int) {
    Covered(m) && forall arn :: arn in m.seen ==> m.seen[arn] <= now
  }

  /** Handling the item does not set its event's stamp back. */
  predicate NoSetBack(m: Memory, item: Item) {
    item.updated.None? && item.arn in m.seen ==> m.seen[item.arn] <= item.at
  }

  lemma HandleIncreases(m: Memory, item: Item, suppress: bool)
    requires Increasing(m.log) && Covered(m) && NoSetBack(m, item)
    ensures Increasing(Handle(m, item, suppress).log) && Covered(Handle(m, item, suppress))
  {
    var m' := Handle(m, item, suppress);
    var n := |m.log|;
    assert forall i :: 0 <= i < n ==> m'.log[i] == m.log[i];
    forall i | 0 <= i < n && IsPost(m'.log, i, item.arn) && IsPost(m'.log, n, item.arn)
      ensures m'.log[i].updated.value < m'.log[n].updated.value
    {
      assert IsPost(m.log, i, m.log[i].arn);
    }
    forall i | 0 <= i < n && IsPost(m'.log, i, m'.log[i].arn)
      ensures m'.log[i].arn in m'.seen && m'.log[i].updated.value <= m'.seen[m'.log[i].arn]
    {
      assert IsPost(m.log, i, m.log[i].arn);
    }
    forall i, j | 0 <= i < j < n && IsPost(m'.log, i, m'.log[j].arn) && IsPost(m'.log, j, m'.log[j].arn)
      ensures m'.log[i].updated.value < m'.log[j].updated.value
    {
      assert IsPost(m.log, i, m.log[j].arn) && IsPost(m.log, j, m.log[j].arn);
    }
  }

  lemma {:induction false} HandleAllIncreases(m: Memory, c: Cycle, n: nat, suppress: bool)
    requires Increasing(m.log) && Stamped(m, c.to) && InOrder(c) && n <= |c.items|
    requires forall i :: 0 <= i < |c.items| && c.items[i].updated.Some? ==> c.items[i].updated.value < c.to
    ensures Increasing(HandleAll(m, c.items[..n], suppress).log) && Stamped(HandleAll(m, c.items[..n], suppress), c.end)
    ensures n < |c.items| ==> Stamped(HandleAll(m, c.items[..n], suppress), c.items[n].at)
  {
    if n > 0 {
      HandleAllIncreases(m, c, n - 1, suppress);
      assert c.items[..n][..n - 1] == c.items[..n - 1];
      HandleIncreases(HandleAll(m, c.items[..n - 1], suppress), c.items[n - 1], suppress);
      StampedLater(HandleAll(m, c.items[..n], suppress), c.items[n - 1].at, c.end);
      if n < |c.items| {
        StampedLater(HandleAll(m, c.items[..n], suppress), c.items[n - 1].at, c.items[n].at);
      }
    }
  }

  lemma StampedLater(m: Memory, now: int, later: int)
    requires Stamped(m, now) && now <= later
    ensures Stamped(m, later)
  {
  }

  lemma CycleIncreases(m: Memory, c: Cycle, suppress: bool)
    requires Increasing(m.log) && Stamped(m, c.to) && InOrder(c)
    requires forall i :: 0 <= i < |c.items| && c.items[i].updated.Some? ==> c.items[i].updated.value < c.to
    ensures Increasing(HandleAll(m, c.items, suppress).log) && Stamped(HandleAll(m, c.items, suppress), c.end)
  {
    HandleAllIncreases(m, c, |c.items|, suppress);
    assert c.items[..|c.items|] == c.items;
  }

  lemma AfterUnbounded(cycles: seq<Cycle>, coldStart: bool)
    requires cycles != []
    ensures var n := |cycles| - 1;
            After(cycles, coldStart, false) ==
            HandleAll(After(cycles[..n], coldStart, false), cycles[n].items, Suppressed(n, coldStart))
  {
  }

  lemma {:induction false} UnboundedIncreases(start: int, cycles: seq<Cycle>, coldStart: bool)
    requires Monotone(start, cycles) && NoneLater(cycles)
    ensures Increasing(After(cycles, coldStart, false).log)
    ensures cycles != [] ==> Stamped(After(cycles, coldStart, false), cycles[|cycles| - 1].end)
  {
    if cycles != [] {
      var n := |cycles| - 1;
      RunPrefix(start, cycles);
      UnboundedIncreases(start, cycles[..n], coldStart);
      AfterUnbounded(cycles, coldStart);
      var m, c := After(cycles[..n], coldStart, false), cycles[n];
      assert n == 0 ==> m == Memory(map[], []);
      hide After, HandleAll;
      assert c == cycles[n] && InOrder(c);
      if n > 0 {
        assert cycles[n - 1].end <= cycles[n - 1 + 1].to;
        StampedLater(m, cycles[n - 1].end, c.to);
      }
      hide Increasing, Stamped;
      CycleIncreases(m, c, Suppressed(n, coldStart));
    }
  }

  const C0 := Cycle(10, [Item("a", Some(100), 10, Published)], 10)
  const C1 := Cycle(20, [Item("a", None, 20, Denied)], 20)
  const C2 := Cycle(30, [Item("a", Some(50), 30, Published)], 30)

  lemma AfterThree()
    ensures After([C0, C1, C2], false, true).log ==
            [Entry("a", Some(100), true, true), Entry("a", None, true, false), Entry("a", Some(50), true, true)]
  {
    AfterOne([], C0);
    AfterOne([C0], C1);
    AfterOne([C0, C1], C2);
    assert After([], false, true) == Memory(map[], []);
    hide After;
    assert [] + [C0] == [C0] && [C0] + [C1] == [C0, C1] && [C0, C1] + [C2] == [C0, C1, C2];
    assert After([C0], false, true) == Memory(map["a" := 100], [Entry("a", Some(100), true, true)]);
    assert After([C0, C1], false, true).seen == map["a" := 20];
  }

  /** When a listing answers outside the range `[from, to)` that it was asked for,
      the order can break: a post dated ahead of the clock, then an untimed update
      that the filter denies, then an update in between. */
  lemma FutureUpdateBreaksOrder()
    ensures exists start, cycles ::
              && Monotone(start, cycles) && NoneEarlier(start, cycles) && ShortCycles(cycles)
              && !Increasing(After(cycles, false, true).log)
  {
    AfterThree();
    hide After;
    var log := After([C0, C1, C2], false, true).log;
    assert IsPost(log, 0, "a") && IsPost(log, 2, "a");
    assert Monotone(0, [C0, C1, C2]) && NoneEarlier(0, [C0, C1, C2]) && ShortCycles([C0, C1, C2]);
  }

  /** A cycle with one item, not suppressed. */
  function HandleOne(m: Memory, c: Cycle): Memory
    requires |c.items| == 1
  {
    var m' := Handle(m, c.items[0], false);
    m'.(seen := Prune(m'.seen, c.end - PRUNE_AFTER))
  }

  lemma AfterOne(cycles: seq<Cycle>, c: Cycle)
    requires |c.items| == 1
    ensures After(cycles + [c], false, true) == HandleOne(After(cycles, false, true), c)
  {
    var m := After(cycles, false, true);
    assert (cycles + [c])[..|cycles|] == cycles && c.items[..0] == [];
    assert HandleAll(m, [], false) == m;
    assert HandleAll(m, c.items, false) == Handle(m, c.items[0], false);
  }

  /** Every posted update time from `from` on is covered by its event's stamp. */
  predicate CoveredFrom(m: Memory, from: int) {
    forall i :: 0 <= i < |m.log| && IsPost(m.log, i, m.log[i].arn) && m.log[i].updated.value >= from ==>
      m.log[i].arn in m.seen && m.log[i].updated.value <= m.seen[m.log[i].arn]
  }

  /** A memory keeps the order under whatever timed update from `from` on comes
      next exactly if its stamps cover the posts from `from` on. */
  lemma OrderIsSafeExactly(m: Memory, from: int)
    requires Increasing(m.log)
    ensures CoveredFrom(m, from) <==>
            forall next: Item :: next.updated.Some? && next.updated.value >= from ==> Increasing(Handle(m, next, false).log)
  {
    if CoveredFrom(m, from) {
      forall next: Item | next.updated.Some? && next.updated.value >= from
        ensures Increasing(Handle(m, next, false).log)
      {
        CoveredIsSafe(m, from, next);
      }
    } else {
      var i :| 0 <= i < |m.log| && IsPost(m.log, i, m.log[i].arn) && m.log[i].updated.value >= from
               && !(m.log[i].arn in m.seen && m.log[i].updated.value <= m.seen[m.log[i].arn]);
      var again := Item(m.log[i].arn, m.log[i].updated, 0, Published);
      var log := Handle(m, again, false).log;
      assert IsPost(log, i, again.arn) && IsPost(log, |m.log|, again.arn);
    }
  }

  lemma CoveredIsSafe(m: Memory, from: int, next: Item)
    requires Increasing(m.log) && CoveredFrom(m, from) && next.updated.Some? && next.updated.value >= from
    ensures Increasing(Handle(m, next, false).log)
  {
    var log, n := Handle(m, next, false).log, |m.log|;
    forall i, j | 0 <= i < j < |log| && IsPost(log, i, log[j].arn) && IsPost(log, j, log[j].arn)
      ensures log[i].updated.value < log[j].updated.value
    {
      assert IsPost(m.log, i, m.log[i].arn);
      if j < n {
        assert IsPost(m.log, i, m.log[j].arn) && IsPost(m.log, j, m.log[j].arn);
      }
    }
  }

  /** Without a lower end: no timed update whatsoever can break the order exactly
      if every post is covered. */
  lemma OrderIsAlwaysSafeExactly(m: Memory)
    requires Increasing(m.log)
    ensures Covered(m) <==> forall next: Item :: next.updated.Some? ==> Increasing(Handle(m, next, false).log)
  {
    if Covered(m) {
      forall next: Item | next.updated.Some?
        ensures Increasing(Handle(m, next, false).log)
      {
        CoveredIsSafe(m, next.updated.value, next);
      }
    } else {
      var i :| 0 <= i < |m.log| && IsPost(m.log, i, m.log[i].arn)
               && !(m.log[i].arn in m.seen && m.log[i].updated.value <= m.seen[m.log[i].arn]);
      OrderIsSafeExactly(m, m.log[i].updated.value);
    }
  }

  /** The item is remembered, provided it is new. */
  predicate Remembers(item: Item, suppress: bool) {
    suppress || item.verdict == Published || item.verdict == Denied
  }

  /** An untimed update, whether posted, denied or suppressed, keeps all posts
      covered exactly if the clock is not behind any posted update time of its
      event; one that is not remembered always does. */
  lemma UntimedKeepsCoverExactly(m: Memory, item: Item, suppress: bool)
    requires Covered(m) && item.updated.None?
    ensures Covered(Handle(m, item, suppress)) <==>
            (Remembers(item, suppress) ==>
               forall i :: 0 <= i < |m.log| && IsPost(m.log, i, item.arn) ==> m.log[i].updated.value <= item.at)
  {
    var m' := Handle(m, item, suppress);
    assert forall i :: 0 <= i < |m.log| ==> m'.log[i] == m.log[i];
    assert forall i, arn :: 0 <= i < |m.log| ==> (IsPost(m'.log, i, arn) <==> IsPost(m.log, i, arn));
    assert !IsPost(m'.log, |m.log|, item.arn);
    if Covered(m') && Remembers(item, suppress) {
      forall i | 0 <= i < |m.log| && IsPost(m.log, i, item.arn)
        ensures m.log[i].updated.value <= item.at
      {
        assert IsPost(m'.log, i, m'.log[i].arn);
      }
    }
  }

  /** A timed update always keeps them covered. */
  lemma TimedKeepsCover(m: Memory, item: Item, suppress: bool)
    requires Covered(m) && item.updated.Some?
    ensures Covered(Handle(m, item, suppress))
  {
    var m' := Handle(m, item, suppress);
    assert forall i, arn :: 0 <= i < |m.log| ==> (IsPost(m'.log, i, arn) <==> IsPost(m.log, i, arn));
  }

  /** Posts that carry an update time carry strictly increasing ones, event by
      event, when listings return updates from the half-open range asked for. */
  lemma PostsIncrease(start: int, cycles: seq<Cycle>, coldStart: bool)
    requires Monotone(start, cycles) && NoneEarlier(start, cycles) && NoneLater(cycles) && ShortCycles(cycles)
    ensures Increasing(After(cycles, coldStart, true).log)
  {
    PrunedDecidesAsUnbounded(start, cycles, coldStart);
    UnboundedIncreases(start, cycles, coldStart);
  }

  // ----- what becomes of every listed item -----

  /** How many items the cycles list. */
  function Total(cycles: seq<Cycle>): nat {
    if cycles == [] then 0 else Total(cycles[..|cycles| - 1]) + |cycles[|cycles| - 1].items|
  }

  /** The memory just before item `i` of cycle `k` is handled. */
  function Before(cycles: seq<Cycle>, coldStart: bool, pruning: bool, k: nat, i: nat): Memory
    requires k < |cycles| && i <= |cycles[k].items|
  {
    HandleAll(After(cycles[..k], coldStart, pruning), cycles[k].items[..i], Suppressed(k, coldStart))
  }

  lemma {:induction false} HandleAllPrefix(m: Memory, items: seq<Item>, n: nat, suppress: bool)
    requires n <= |items|
    ensures HandleAll(m, items[..n], suppress).log <= HandleAll(m, items, suppress).log
  {
    if n < |items| {
      var init := items[..|items| - 1];
      assert init[..n] == items[..n];
      HandleAllPrefix(m, init, n, suppress);
    } else {
      assert items[..n] == items;
    }
  }

  /** The log holds one entry for each listed item, in order. */
  lemma {:induction false} LogLength(cycles: seq<Cycle>, coldStart: bool, pruning: bool)
    ensures |After(cycles, coldStart, pruning).log| == Total(cycles)
  {
    if cycles != [] {
      LogLength(cycles[..|cycles| - 1], coldStart, pruning);
    }
  }

  /** The entry of item `i` of cycle `k`. */
  predicate EntryLaw(cycles: seq<Cycle>, coldStart: bool, pruning: bool, k: nat, i: nat, entry: Entry)
    requires k < |cycles| && i < |cycles[k].items|
  {
    var item := cycles[k].items[i];
    var fresh' := ShouldProcess(Before(cycles, coldStart, pruning, k, i).seen, item.arn, item.updated);
    && entry.arn == item.arn && entry.updated == item.updated
    && (entry.processed <==> fresh')
    && (entry.posted <==> fresh' && item.verdict == Published && !(k == 0 && coldStart))
  }

  lemma EntryInCycle(cycles: seq<Cycle>, coldStart: bool, pruning: bool, k: nat, i: nat)
    requires k == |cycles| - 1 && i < |cycles[k].items|
    ensures Total(cycles[..k]) + i < |After(cycles, coldStart, pruning).log|
    ensures EntryLaw(cycles, coldStart, pruning, k, i, After(cycles, coldStart, pruning).log[Total(cycles[..k]) + i])
  {
    var m, items, suppress := After(cycles[..k], coldStart, pruning), cycles[k].items, Suppressed(k, coldStart);
    LogLength(cycles[..k], coldStart, pruning);
    HandleAllPrefix(m, items, i + 1, suppress);
    LastEntry(m, items, i, suppress);
    AfterLog(cycles, coldStart, pruning);
    hide After, HandleAll, Handle;
    var log := HandleAll(m, items[..i + 1], suppress).log;
    assert |log| == |m.log| + i + 1 && log[|m.log| + i] == HandleAll(m, items, suppress).log[|m.log| + i];
  }

  lemma AfterLog(cycles: seq<Cycle>, coldStart: bool, pruning: bool)
    requires cycles != []
    ensures var n := |cycles| - 1;
            After(cycles, coldStart, pruning).log ==
            HandleAll(After(cycles[..n], coldStart, pruning), cycles[n].items, Suppressed(n, coldStart)).log
  {
  }

  /** The entry that handling item `i` adds. */
  lemma LastEntry(m: Memory, items: seq<Item>, i: nat, suppress: bool)
    requires i < |items|
    ensures var log, before := HandleAll(m, items[..i + 1], suppress).log, HandleAll(m, items[..i], suppress);
            var item := items[i];
            var new' := ShouldProcess(before.seen, item.arn, item.updated);
            |log| == |m.log| + i + 1 && log[|m.log| + i] == Entry(item.arn, item.updated, new', new' && !suppress && item.verdict == Published)
  {
    assert items[..i + 1][..i] == items[..i];
  }

  /** In every run, an item is posted exactly if it is new to the memory at that
      moment, is published, and its cycle is not a suppressed cold start. */
  lemma {:induction false} PostedExactly(cycles: seq<Cycle>, coldStart: bool, pruning: bool, k: nat, i: nat)
    requires k < |cycles| && i < |cycles[k].items|
    ensures Total(cycles[..k]) + i < |After(cycles, coldStart, pruning).log|
    ensures EntryLaw(cycles, coldStart, pruning, k, i, After(cycles, coldStart, pruning).log[Total(cycles[..k]) + i])
  {
    var n := |cycles| - 1;
    if k == n {
      EntryInCycle(cycles, coldStart, pruning, k, i);
    } else {
      var init := cycles[..n];
      PostedExactly(init, coldStart, pruning, k, i);
      assert init[..k] == cycles[..k];
      AfterGrows(cycles, coldStart, pruning);
      assert Before(init, coldStart, pruning, k, i) == Before(cycles, coldStart, pruning, k, i);
    }
  }

  lemma AfterGrows(cycles: seq<Cycle>, coldStart: bool, pruning: bool)
    requires cycles != []
    ensures After(cycles[..|cycles| - 1], coldStart, pruning).log <= After(cycles, coldStart, pruning).log
  {
  }

  /** A suppressed cold start posts nothing. */
  lemma ColdStartPostsNothing(cycles: seq<Cycle>, pruning: bool, i: nat)
    requires cycles != [] && i < |cycles[0].items|
    ensures i < |After(cycles, true, pruning).log| && !After(cycles, true, pruning).log[i].posted
  {
    PostedExactly(cycles, true, pruning, 0, i);
    assert cycles[..0] == [];
  }

  /** What the filter denies, or could not be looked up or posted, is not posted. */
  lemma OnlyPublishedIsPosted(cycles: seq<Cycle>, coldStart: bool, pruning: bool, k: nat, i: nat)
    requires k < |cycles| && i < |cycles[k].items| && cycles[k].items[i].verdict != Published
    ensures Total(cycles[..k]) + i < |After(cycles, coldStart, pruning).log|
    ensures !After(cycles, coldStart, pruning).log[Total(cycles[..k]) + i].posted
  {
    PostedExactly(cycles, coldStart, pruning, k, i);
  }

  lemma BeforeNext(cycles: seq<Cycle>, coldStart: bool, pruning: bool, k: nat, i: nat)
    requires k < |cycles| && i < |cycles[k].items|
    ensures Before(cycles, coldStart, pruning, k, i + 1) ==
            Handle(Before(cycles, coldStart, pruning, k, i), cycles[k].items[i], Suppressed(k, coldStart))
  {
    assert cycles[k].items[..i + 1][..i] == cycles[k].items[..i];
  }

  /** An item is new unless its event is remembered with the same or a later time,
      and the item has a time; a new item that is posted, denied or suppressed is
      remembered with its time, or without one with the time of handling; nothing
      else changes the memory between prunings. */
  lemma RemembersExactly(cycles: seq<Cycle>, coldStart: bool, pruning: bool, k: nat, i: nat)
    requires k < |cycles| && i < |cycles[k].items|
    ensures var item := cycles[k].items[i];
            var seen, seen' := Before(cycles, coldStart, pruning, k, i).seen, Before(cycles, coldStart, pruning, k, i + 1).seen;
            var stale := item.arn in seen && item.updated.Some? && item.updated.value <= seen[item.arn];
            seen' == if stale || !Remembers(item, Suppressed(k, coldStart)) then seen
                     else seen[item.arn := if item.updated.Some? then item.updated.value else item.at]
  {
    BeforeNext(cycles, coldStart, pruning, k, i);
  }

  /** A new item, timed or not, whose look-up or post fails in a cycle that is not
      suppressed is still new afterwards. */
  lemma FailedStaysNew(cycles: seq<Cycle>, coldStart: bool, pruning: bool, k: nat, i: nat)
    requires k < |cycles| && i < |cycles[k].items| && !Suppressed(k, coldStart)
    requires cycles[k].items[i].verdict.HydrateFailed? || cycles[k].items[i].verdict.PublishFailed?
    ensures Before(cycles, coldStart, pruning, k, i + 1).seen == Before(cycles, coldStart, pruning, k, i).seen
  {
    BeforeNext(cycles, coldStart, pruning, k, i);
  }

  /** A timed item that is posted, denied or suppressed is not new afterwards; and
      no item makes another event's update more or less new. */
  lemma HandledIsOld(cycles: seq<Cycle>, coldStart: bool, pruning: bool, k: nat, i: nat, arn: string, u: int)
    requires k < |cycles| && i < |cycles[k].items|
    ensures var item := cycles[k].items[i];
            var m, m' := Before(cycles, coldStart, pruning, k, i), Before(cycles, coldStart, pruning, k, i + 1);
            && (Remembers(item, Suppressed(k, coldStart)) && item.updated.Some? ==>
                  !ShouldProcess(m'.seen, item.arn, item.updated))
            && (arn != item.arn ==> (ShouldProcess(m'.seen, arn, Some(u)) <==> ShouldProcess(m.seen, arn, Some(u))))
  {
    BeforeNext(cycles, coldStart, pruning, k, i);
  }
}
