/** Reminders before an event starts: at most one per event and offset, inside
    the offset's window, for as long as the event stays listed as upcoming. */
module Reminders {
  import opened Wrappers
  import opened DedupMemory

  /** An offset is in whole hours before the start. */
  type Key = (string, nat)

  /** What a look-up and post attempt for one offset meets. */
  datatype Try = HydrateFailed | PublishFailed | Published

  /** A listed upcoming event; `tries` says what each offset's attempt meets. */
  datatype Upcoming = Upcoming(arn: string, start: Option<int>, hasEnd: bool, allowed: bool, tries: nat -> Try)

  /** One reminder poll: the listing, or none if it failed. */
  datatype Poll = Poll(listing: Option<seq<Upcoming>>, now: int, suppress: bool)

  datatype Post = Post(poll: nat, arn: string, offset: nat, now: int, start: int)

  datatype Tracker = Tracker(fired: set<Key>, posts: seq<Post>)

  /** The event can be reminded of: it has a start ahead and an end. */
  predicate Eligible(u: Upcoming, now: int) {
    u.start.Some? && u.hasEnd && u.start.value > now
  }

  predicate Due(u: Upcoming, now: int, offset: nat)
    requires Eligible(u, now)
  {
    u.start.value - now <= offset * HOUR
  }

  /** One offset of one event. The flag says whether evaluation goes on. */
  function TryOffset(t: Tracker, u: Upcoming, p: Poll, k: nat, offset: nat, i: nat): (r: (Tracker, bool))
    requires Eligible(u, p.now)
  {
    if !Due(u, p.now, offset) || (u.arn, offset) in t.fired then (t, true)
    else if p.suppress || !u.allowed then (t.(fired := t.fired + {(u.arn, offset)}), true)
    else
      match u.tries(i)
      case HydrateFailed => (t, false)
      case PublishFailed => (t, true)
      case Published =>
        (Tracker(t.fired + {(u.arn, offset)}, t.posts + [Post(k, u.arn, offset, p.now, u.start.value)]), true)
  }

  /** The first `n` offsets of one event. */
  function TryOffsets(t: Tracker, u: Upcoming, p: Poll, k: nat, offsets: seq<nat>, n: nat): (r: (Tracker, bool))
    requires Eligible(u, p.now) && n <= |offsets|
  {
    if n == 0 then (t, true)
    else
      var (t', more) := TryOffsets(t, u, p, k, offsets, n - 1);
      if more then TryOffset(t', u, p, k, offsets[n - 1], n - 1) else (t', false)
  }

  function Evaluate(t: Tracker, u: Upcoming, p: Poll, k: nat, offsets: seq<nat>): (t': Tracker) {
    if Eligible(u, p.now) then TryOffsets(t, u, p, k, offsets, |offsets|).0 else t
  }

  function EvaluateAll(t: Tracker, us: seq<Upcoming>, p: Poll, k: nat, offsets: seq<nat>): (t': Tracker) {
    if us == [] then t
    else Evaluate(EvaluateAll(t, us[..|us| - 1], p, k, offsets), us[|us| - 1], p, k, offsets)
  }

  predicate Lists(us: seq<Upcoming>, arn: string) {
    exists i :: 0 <= i < |us| && us[i].arn == arn
  }

  function Retain(fired: set<Key>, us: seq<Upcoming>): set<Key> {
    set key | key in fired && Lists(us, key.0)
  }

  predicate AllZero(offsets: seq<nat>) {
    forall i :: 0 <= i < |offsets| ==> offsets[i] == 0
  }

  /** A poll does anything only with an offset above zero and a listing. */
  predicate Completes(p: Poll, offsets: seq<nat>) {
    p.listing.Some? && !AllZero(offsets)
  }

  /** Poll `k`. */
  function DoPoll(t: Tracker, p: Poll, k: nat, offsets: seq<nat>): (t': Tracker) {
    if !Completes(p, offsets) then t
    else
      var t1 := EvaluateAll(t, p.listing.value, p, k, offsets);
      t1.(fired := Retain(t1.fired, p.listing.value))
  }

  function After(polls: seq<Poll>, offsets: seq<nat>): (t: Tracker) {
    if polls == [] then Tracker({}, [])
    else DoPoll(After(polls[..|polls| - 1], offsets), polls[|polls| - 1], |polls| - 1, offsets)
  }

  // ----- uniqueness -----

  /** A poll strictly between `i` and `j` completed without listing the event. */
  predicate Separated(polls: seq<Poll>, offsets: seq<nat>, i: nat, j: nat, arn: string) {
    exists k :: i < k < j && k < |polls| && Completes(polls[k], offsets) && !Lists(polls[k].listing.value, arn)
  }

  predicate Same(a: Post, b: Post) {
    a.arn == b.arn && a.offset == b.offset
  }

  /** During poll `n`: each post is still remembered or separated from now, and
      posts for the same event and offset are separated from each other. */
  predicate Unique(t: Tracker, polls: seq<Poll>, offsets: seq<nat>, n: nat) {
    && (forall i :: 0 <= i < |t.posts| ==> t.posts[i].poll <= n)
    && (forall i :: 0 <= i < |t.posts| ==>
          (t.posts[i].arn, t.posts[i].offset) in t.fired || Separated(polls, offsets, t.posts[i].poll, n, t.posts[i].arn))
    && (forall i, j :: 0 <= i < j < |t.posts| && Same(t.posts[i], t.posts[j]) ==>
          Separated(polls, offsets, t.posts[i].poll, t.posts[j].poll, t.posts[i].arn))
  }

  lemma TryOffsetUnique(t: Tracker, u: Upcoming, p: Poll, polls: seq<Poll>, n: nat, offsets: seq<nat>, offset: nat, i: nat)
    requires Eligible(u, p.now) && Unique(t, polls, offsets, n)
    ensures Unique(TryOffset(t, u, p, n, offset, i).0, polls, offsets, n)
  {
    hide Separated;
  }

  lemma {:induction false} TryOffsetsUnique(t: Tracker, u: Upcoming, p: Poll, polls: seq<Poll>, n: nat, offsets: seq<nat>, m: nat)
    requires Eligible(u, p.now) && m <= |offsets| && Unique(t, polls, offsets, n)
    ensures Unique(TryOffsets(t, u, p, n, offsets, m).0, polls, offsets, n)
  {
    hide Unique;
    if m > 0 {
      TryOffsetsUnique(t, u, p, polls, n, offsets, m - 1);
      TryOffsetUnique(TryOffsets(t, u, p, n, offsets, m - 1).0, u, p, polls, n, offsets, offsets[m - 1], m - 1);
    }
  }

  /** New posts are for listed events. */
  predicate Listed(t: Tracker, us: seq<Upcoming>, n: nat) {
    forall i :: 0 <= i < |t.posts| && t.posts[i].poll == n ==> Lists(us, t.posts[i].arn)
  }

  lemma {:induction false} TryOffsetsListed(t: Tracker, u: Upcoming, p: Poll, us: seq<Upcoming>, n: nat, offsets: seq<nat>, m: nat)
    requires Eligible(u, p.now) && m <= |offsets| && Listed(t, us, n) && Lists(us, u.arn)
    ensures Listed(TryOffsets(t, u, p, n, offsets, m).0, us, n)
  {
    hide Lists;
    if m > 0 {
      TryOffsetsListed(t, u, p, us, n, offsets, m - 1);
    }
  }

  lemma {:induction false} EvaluateAllUnique(t: Tracker, us: seq<Upcoming>, p: Poll, polls: seq<Poll>, n: nat, offsets: seq<nat>, m: nat)
    requires m <= |us| && Unique(t, polls, offsets, n) && Listed(t, us, n)
    ensures Unique(EvaluateAll(t, us[..m], p, n, offsets), polls, offsets, n)
    ensures Listed(EvaluateAll(t, us[..m], p, n, offsets), us, n)
  {
    hide Unique, Listed;
    if m > 0 {
      EvaluateAllUnique(t, us, p, polls, n, offsets, m - 1);
      assert us[..m][..m - 1] == us[..m - 1];
      var t', u := EvaluateAll(t, us[..m - 1], p, n, offsets), us[m - 1];
      if Eligible(u, p.now) {
        assert Lists(us, u.arn);
        TryOffsetsUnique(t', u, p, polls, n, offsets, |offsets|);
        TryOffsetsListed(t', u, p, us, n, offsets, |offsets|);
      }
    }
  }

  lemma SeparatedLater(polls: seq<Poll>, offsets: seq<nat>, i: nat, j: nat, j': nat, arn: string)
    requires Separated(polls, offsets, i, j, arn) && j <= j'
    ensures Separated(polls, offsets, i, j', arn)
  {
  }

  /** Forgetting what is no longer listed separates those posts from the next poll. */
  lemma RetainUnique(t: Tracker, polls: seq<Poll>, n: nat, offsets: seq<nat>)
    requires n < |polls| && Unique(t, polls, offsets, n)
    requires Completes(polls[n], offsets) && Listed(t, polls[n].listing.value, n)
    ensures Unique(t.(fired := Retain(t.fired, polls[n].listing.value)), polls, offsets, n + 1)
  {
    var us := polls[n].listing.value;
    forall i | 0 <= i < |t.posts| && (t.posts[i].arn, t.posts[i].offset) !in Retain(t.fired, us)
      ensures Separated(polls, offsets, t.posts[i].poll, n + 1, t.posts[i].arn)
    {
      var post := t.posts[i];
      if (post.arn, post.offset) !in t.fired {
        SeparatedLater(polls, offsets, post.poll, n, n + 1, post.arn);
      }
    }
  }

  lemma IdleUnique(t: Tracker, polls: seq<Poll>, n: nat, offsets: seq<nat>)
    requires Unique(t, polls, offsets, n)
    ensures Unique(t, polls, offsets, n + 1)
  {
    forall i | 0 <= i < |t.posts| && (t.posts[i].arn, t.posts[i].offset) !in t.fired
      ensures Separated(polls, offsets, t.posts[i].poll, n + 1, t.posts[i].arn)
    {
      SeparatedLater(polls, offsets, t.posts[i].poll, n, n + 1, t.posts[i].arn);
    }
  }

  lemma {:induction false} AfterUnique(polls: seq<Poll>, offsets: seq<nat>, n: nat)
    requires n <= |polls|
    ensures Unique(After(polls[..n], offsets), polls, offsets, n)
    ensures forall i :: 0 <= i < |After(polls[..n], offsets).posts| ==> After(polls[..n], offsets).posts[i].poll < n
  {
    if n > 0 {
      AfterUnique(polls, offsets, n - 1);
      assert polls[..n][..n - 1] == polls[..n - 1];
      PollUnique(After(polls[..n - 1], offsets), polls, n - 1, offsets);
    }
  }

  lemma PollUnique(t: Tracker, polls: seq<Poll>, n: nat, offsets: seq<nat>)
    requires n < |polls| && Unique(t, polls, offsets, n)
    requires forall i :: 0 <= i < |t.posts| ==> t.posts[i].poll < n
    ensures var t' := DoPoll(t, polls[n], n, offsets);
            Unique(t', polls, offsets, n + 1) && forall i :: 0 <= i < |t'.posts| ==> t'.posts[i].poll < n + 1
  {
    var p := polls[n];
    if Completes(p, offsets) {
      var us := p.listing.value;
      EvaluateAllUnique(t, us, p, polls, n, offsets, |us|);
      assert us[..|us|] == us;
      RetainUnique(EvaluateAll(t, us, p, n, offsets), polls, n, offsets);
    } else {
      IdleUnique(t, polls, n, offsets);
    }
  }

  /** In every run, between two posts for the same event and offset there is a
      completed poll whose listing lacks the event. */
  lemma ReminderIsUnique(polls: seq<Poll>, offsets: seq<nat>, i: nat, j: nat)
    requires var posts := After(polls, offsets).posts;
             i < j < |posts| && Same(posts[i], posts[j])
    ensures var posts := After(polls, offsets).posts;
            exists k :: && posts[i].poll < k < posts[j].poll && k < |polls| && Completes(polls[k], offsets)
                        && !Lists(polls[k].listing.value, posts[i].arn)
  {
    AfterUnique(polls, offsets, |polls|);
    assert polls[..|polls|] == polls;
    var posts := After(polls, offsets).posts;
    assert Separated(polls, offsets, posts[i].poll, posts[j].poll, posts[i].arn);
  }

  // ----- the window -----

  /** Every post of poll `n` was made in its window, in a poll that is not suppressed. */
  predicate InWindow(post: Post, polls: seq<Poll>) {
    && post.poll < |polls| && post.now == polls[post.poll].now && !polls[post.poll].suppress
    && 0 < post.start - post.now <= post.offset * HOUR
  }

  predicate AllInWindow(t: Tracker, polls: seq<Poll>) {
    forall i :: 0 <= i < |t.posts| ==> InWindow(t.posts[i], polls)
  }

  lemma {:induction false} TryOffsetsInWindow(t: Tracker, u: Upcoming, polls: seq<Poll>, n: nat, offsets: seq<nat>, m: nat)
    requires n < |polls| && Eligible(u, polls[n].now) && m <= |offsets| && AllInWindow(t, polls)
    ensures AllInWindow(TryOffsets(t, u, polls[n], n, offsets, m).0, polls)
  {
    if m > 0 {
      TryOffsetsInWindow(t, u, polls, n, offsets, m - 1);
    }
  }

  lemma {:induction false} EvaluateAllInWindow(t: Tracker, us: seq<Upcoming>, polls: seq<Poll>, n: nat, offsets: seq<nat>)
    requires n < |polls| && AllInWindow(t, polls)
    ensures AllInWindow(EvaluateAll(t, us, polls[n], n, offsets), polls)
  {
    if us != [] {
      var init, u := us[..|us| - 1], us[|us| - 1];
      EvaluateAllInWindow(t, init, polls, n, offsets);
      if Eligible(u, polls[n].now) {
        TryOffsetsInWindow(EvaluateAll(t, init, polls[n], n, offsets), u, polls, n, offsets, |offsets|);
      }
    }
  }

  /** Every post happens with the start ahead and at most the offset away, in a
      poll that is not suppressed. */
  lemma {:induction false} PostsAreInWindow(polls: seq<Poll>, offsets: seq<nat>, n: nat)
    requires n <= |polls|
    ensures AllInWindow(After(polls[..n], offsets), polls)
  {
    if n > 0 {
      PostsAreInWindow(polls, offsets, n - 1);
      assert polls[..n][..n - 1] == polls[..n - 1];
      var t, p := After(polls[..n - 1], offsets), polls[n - 1];
      if Completes(p, offsets) {
        EvaluateAllInWindow(t, p.listing.value, polls, n - 1, offsets);
      }
    }
  }

  // ----- posts are for listed events that the filter allows -----

  predicate IsFor(post: Post, u: Upcoming) {
    u.arn == post.arn && u.allowed && u.hasEnd && u.start == Some(post.start)
  }

  /** The post is for an event that its poll listed and the filter allows. */
  predicate Genuine(post: Post, polls: seq<Poll>) {
    && post.poll < |polls| && polls[post.poll].listing.Some?
    && exists i :: 0 <= i < |polls[post.poll].listing.value| && IsFor(post, polls[post.poll].listing.value[i])
  }

  predicate AllGenuine(t: Tracker, polls: seq<Poll>) {
    forall i :: 0 <= i < |t.posts| ==> Genuine(t.posts[i], polls)
  }

  lemma {:induction false} TryOffsetsGenuine(t: Tracker, polls: seq<Poll>, n: nat, k: nat, offsets: seq<nat>, m: nat)
    requires n < |polls| && polls[n].listing.Some? && k < |polls[n].listing.value| && m <= |offsets|
    requires Eligible(polls[n].listing.value[k], polls[n].now) && AllGenuine(t, polls)
    ensures AllGenuine(TryOffsets(t, polls[n].listing.value[k], polls[n], n, offsets, m).0, polls)
  {
    if m > 0 {
      TryOffsetsGenuine(t, polls, n, k, offsets, m - 1);
    }
  }

  lemma {:induction false} EvaluateAllGenuine(t: Tracker, polls: seq<Poll>, n: nat, offsets: seq<nat>, m: nat)
    requires n < |polls| && polls[n].listing.Some? && m <= |polls[n].listing.value| && AllGenuine(t, polls)
    ensures AllGenuine(EvaluateAll(t, polls[n].listing.value[..m], polls[n], n, offsets), polls)
  {
    if m > 0 {
      var us := polls[n].listing.value;
      EvaluateAllGenuine(t, polls, n, offsets, m - 1);
      assert us[..m][..m - 1] == us[..m - 1];
      if Eligible(us[m - 1], polls[n].now) {
        TryOffsetsGenuine(EvaluateAll(t, us[..m - 1], polls[n], n, offsets), polls, n, m - 1, offsets, |offsets|);
      }
    }
  }

  /** In every run, every post is for an event that its poll listed, with a start
      and an end, and that the filter allows. */
  lemma {:induction false} PostsAreGenuine(polls: seq<Poll>, offsets: seq<nat>, n: nat)
    requires n <= |polls|
    ensures AllGenuine(After(polls[..n], offsets), polls)
  {
    if n > 0 {
      PostsAreGenuine(polls, offsets, n - 1);
      assert polls[..n][..n - 1] == polls[..n - 1];
      var p := polls[n - 1];
      if Completes(p, offsets) {
        EvaluateAllGenuine(After(polls[..n - 1], offsets), polls, n - 1, offsets, |p.listing.value|);
        assert p.listing.value[..|p.listing.value|] == p.listing.value;
      }
    }
  }

  /** A due reminder whose look-up or post fails changes nothing and stays due; a
      failed look-up ends the event's turn, a failed post does not. */
  lemma FailedStaysDue(t: Tracker, u: Upcoming, p: Poll, k: nat, offset: nat, i: nat)
    requires Eligible(u, p.now) && Due(u, p.now, offset) && (u.arn, offset) !in t.fired
    requires !p.suppress && u.allowed && u.tries(i) != Published
    ensures TryOffset(t, u, p, k, offset, i) == (t, u.tries(i) == PublishFailed)
  {
  }

  /** A reminder that is suppressed or denied is remembered without a post. */
  lemma SilentIsRemembered(t: Tracker, u: Upcoming, p: Poll, k: nat, offset: nat, i: nat)
    requires Eligible(u, p.now) && Due(u, p.now, offset) && (p.suppress || !u.allowed)
    ensures TryOffset(t, u, p, k, offset, i) == (t.(fired := t.fired + {(u.arn, offset)}), true)
  {
    assert (u.arn, offset) in t.fired ==> t.fired + {(u.arn, offset)} == t.fired;
  }

  // ----- forgetting -----

  lemma {:induction false} TryOffsetsKeeps(t: Tracker, u: Upcoming, p: Poll, k: nat, offsets: seq<nat>, m: nat)
    requires Eligible(u, p.now) && m <= |offsets|
    ensures t.fired <= TryOffsets(t, u, p, k, offsets, m).0.fired
  {
    if m > 0 {
      TryOffsetsKeeps(t, u, p, k, offsets, m - 1);
    }
  }

  lemma {:induction false} EvaluateAllKeeps(t: Tracker, us: seq<Upcoming>, p: Poll, k: nat, offsets: seq<nat>)
    ensures t.fired <= EvaluateAll(t, us, p, k, offsets).fired
  {
    if us != [] {
      var init, u := us[..|us| - 1], us[|us| - 1];
      EvaluateAllKeeps(t, init, p, k, offsets);
      if Eligible(u, p.now) {
        TryOffsetsKeeps(EvaluateAll(t, init, p, k, offsets), u, p, k, offsets, |offsets|);
      }
    }
  }

  /** A completed poll forgets exactly the events it did not list; another poll
      forgets nothing. */
  lemma ForgetsExactlyUnlisted(t: Tracker, p: Poll, k: nat, offsets: seq<nat>, key: Key)
    requires key in t.fired
    ensures key in DoPoll(t, p, k, offsets).fired <==> !Completes(p, offsets) || Lists(p.listing.value, key.0)
  {
    if Completes(p, offsets) {
      EvaluateAllKeeps(t, p.listing.value, p, k, offsets);
    }
  }

  // ----- a due reminder is posted -----

  predicate Posted(posts: seq<Post>, key: Key) {
    exists i :: 0 <= i < |posts| && posts[i].arn == key.0 && posts[i].offset == key.1
  }

  /** What is newly remembered was newly posted. */
  predicate Honest(t: Tracker, t': Tracker) {
    && t.posts <= t'.posts && t.fired <= t'.fired
    && forall key :: key in t'.fired && key !in t.fired ==> Posted(t'.posts[|t.posts|..], key)
  }

  lemma TryOffsetHonest(t0: Tracker, t: Tracker, u: Upcoming, p: Poll, k: nat, offset: nat, i: nat)
    requires Eligible(u, p.now) && !p.suppress && u.allowed && Honest(t0, t)
    ensures Honest(t0, TryOffset(t, u, p, k, offset, i).0)
  {
    var t', n := TryOffset(t, u, p, k, offset, i).0, |t0.posts|;
    forall key | key in t'.fired && key !in t0.fired
      ensures Posted(t'.posts[n..], key)
    {
      if key in t.fired {
        var j :| 0 <= j < |t.posts[n..]| && t.posts[n..][j].arn == key.0 && t.posts[n..][j].offset == key.1;
        assert t'.posts[n..][j] == t.posts[n..][j];
      } else {
        assert t'.posts[n..][|t'.posts| - 1 - n].offset == key.1;
      }
    }
  }

  /** With every attempt succeeding, each due offset is remembered, none is forgotten. */
  lemma {:induction false} TryOffsetsFire(t0: Tracker, t: Tracker, u: Upcoming, p: Poll, k: nat, offsets: seq<nat>, m: nat)
    requires Eligible(u, p.now) && m <= |offsets| && !p.suppress && u.allowed && Honest(t0, t)
    requires forall i :: u.tries(i) == Published
    ensures TryOffsets(t, u, p, k, offsets, m).1 && Honest(t0, TryOffsets(t, u, p, k, offsets, m).0)
    ensures t.fired <= TryOffsets(t, u, p, k, offsets, m).0.fired
    ensures forall j :: 0 <= j < m && Due(u, p.now, offsets[j]) ==> (u.arn, offsets[j]) in TryOffsets(t, u, p, k, offsets, m).0.fired
  {
    if m > 0 {
      TryOffsetsFire(t0, t, u, p, k, offsets, m - 1);
      TryOffsetHonest(t0, TryOffsets(t, u, p, k, offsets, m - 1).0, u, p, k, offsets[m - 1], m - 1);
    }
  }

  lemma {:induction false} EvaluateAllFires(t: Tracker, us: seq<Upcoming>, p: Poll, k: nat, offsets: seq<nat>)
    requires !p.suppress && forall i :: 0 <= i < |us| ==> us[i].allowed && forall x :: us[i].tries(x) == Published
    ensures Honest(t, EvaluateAll(t, us, p, k, offsets))
    ensures forall i, j :: 0 <= i < |us| && 0 <= j < |offsets| && Eligible(us[i], p.now) && Due(us[i], p.now, offsets[j]) ==>
              (us[i].arn, offsets[j]) in EvaluateAll(t, us, p, k, offsets).fired
  {
    if us != [] {
      var init, u := us[..|us| - 1], us[|us| - 1];
      EvaluateAllFires(t, init, p, k, offsets);
      if Eligible(u, p.now) {
        TryOffsetsFire(t, EvaluateAll(t, init, p, k, offsets), u, p, k, offsets, |offsets|);
      }
    }
  }

  /** A poll that is not suppressed, whose listed events pass the filter and whose
      attempts succeed, posts every due reminder not remembered from before. */
  lemma DueIsPosted(t: Tracker, p: Poll, k: nat, offsets: seq<nat>, i: nat, j: nat)
    requires Completes(p, offsets) && !p.suppress && i < |p.listing.value| && j < |offsets|
    requires forall i :: 0 <= i < |p.listing.value| ==>
               p.listing.value[i].allowed && forall x :: p.listing.value[i].tries(x) == Published
    requires var u := p.listing.value[i];
             Eligible(u, p.now) && Due(u, p.now, offsets[j]) && (u.arn, offsets[j]) !in t.fired
    ensures t.posts <= DoPoll(t, p, k, offsets).posts
    ensures Posted(DoPoll(t, p, k, offsets).posts[|t.posts|..], (p.listing.value[i].arn, offsets[j]))
  {
    EvaluateAllFires(t, p.listing.value, p, k, offsets);
  }
}
