/** The standby's cursor over the leader's paged digest listing.

    A digest is the number its 64 hexadecimal digits spell, so numeric order is
    the lexicographic order of the listing; the empty cursor is -1. */
module BlobPages {
  import opened Wrappers

  type Digest = nat

  const PAGE_SIZE: nat := 1000

  predicate Increasing(s: seq<Digest>) {
    forall i, j :: 0 <= i < j < |s| ==> s[i] < s[j]
  }

  /** The leader's answer to "at most PAGE_SIZE digests after `after`, in order",
      given the set it holds at that moment. */
  predicate IsPage(view: set<Digest>, after: int, page: seq<Digest>) {
    && Increasing(page) && |page| <= PAGE_SIZE
    && (forall d :: d in page ==> d in view && after < d)
    && (forall d :: d in view && after < d && d !in page ==> |page| == PAGE_SIZE && page[|page| - 1] < d)
  }

  datatype Cursor = Cursor(buf: seq<Digest>, after: int, done: bool)

  const START := Cursor([], -1, false)

  predicate NeedsPage(c: Cursor) {
    c.buf == [] && !c.done
  }

  /** One call of `next`; `page` is what the leader answers if it is asked. */
  function Next(c: Cursor, page: Result<seq<Digest>, string>): (r: (Cursor, Result<Option<Digest>, string>)) {
    if c.buf != [] then
      (Cursor(c.buf[1..], c.buf[0], c.done), Success(Some(c.buf[0])))
    else if c.done then
      (c, Success(None))
    else
      match page
      case Failure(e) => (c, Failure(e))
      case Success(p) =>
        if p == [] then (c.(done := true), Success(None))
        else (Cursor(p[1..], p[0], false), Success(Some(p[0])))
  }

  /** Digest `d` is still ahead of the cursor: buffered, or beyond what was read. */
  predicate Ahead(c: Cursor, d: Digest) {
    d in c.buf || (!c.done && Horizon(c) < d)
  }

  function Horizon(c: Cursor): int {
    if c.buf == [] then c.after else c.buf[|c.buf| - 1]
  }

  predicate CursorInv(c: Cursor) {
    Increasing(c.buf) && (forall d :: d in c.buf ==> c.after < d)
  }

  /** A step of the cursor over a leader that holds `view` at that moment keeps
      every digest of `view` either just yielded or ahead, and yields forward. */
  lemma NextKeepsAhead(c: Cursor, view: set<Digest>, page: seq<Digest>)
    requires CursorInv(c) && (NeedsPage(c) ==> IsPage(view, c.after, page))
    ensures var (c', r) := Next(c, Success(page));
            && CursorInv(c') && r.Success? && c.after <= c'.after
            && (r.value.Some? ==> c.after < r.value.value == c'.after && (r.value.value in c.buf || r.value.value in view))
            && (r.value.None? ==> c'.done && c'.buf == [] && c'.after == c.after)
            && (forall d :: d in view && Ahead(c, d) ==> r.value == Some(d) || Ahead(c', d))
            && (forall d :: Ahead(c', d) ==> c'.after < d)
  {
    var (c', r) := Next(c, Success(page));
    assert c.buf != [] ==> c.buf[0] in c.buf;
    assert page != [] ==> page[0] in page;
    forall d | d in view && Ahead(c, d)
      ensures r.value == Some(d) || Ahead(c', d)
    {
      var buf := if c.buf == [] then page else c.buf;
      if d in buf {
        assert buf == [buf[0]] + buf[1..];
      }
    }
  }

  // ----- a whole listing -----

  /** Calls of `next` until the end; `views[i]` is what the leader holds during
      call `i`, and the last call answers "end". */
  predicate Listing(cursors: seq<Cursor>, views: seq<set<Digest>>, pages: seq<seq<Digest>>, listed: seq<Digest>) {
    && |cursors| == |listed| + 1 == |views| == |pages|
    && cursors[0] == START
    && (forall i :: 0 <= i < |cursors| && NeedsPage(cursors[i]) ==> IsPage(views[i], cursors[i].after, pages[i]))
    && (forall i :: 0 <= i < |listed| ==> Next(cursors[i], Success(pages[i])) == (cursors[i + 1], Success(Some(listed[i]))))
    && Next(cursors[|listed|], Success(pages[|listed|])).1 == Success(None)
  }

  lemma {:induction false} ListingPrefix(cursors: seq<Cursor>, views: seq<set<Digest>>, pages: seq<seq<Digest>>, listed: seq<Digest>, n: nat, d: Digest)
    requires Listing(cursors, views, pages, listed) && n < |cursors|
    ensures CursorInv(cursors[n]) && Increasing(listed[..n])
    ensures forall i :: 0 <= i < n ==> listed[i] <= cursors[n].after
    ensures (forall i :: 0 <= i < |views| ==> d in views[i]) ==> d in listed[..n] || Ahead(cursors[n], d)
  {
    if n > 0 {
      ListingPrefix(cursors, views, pages, listed, n - 1, d);
      NextKeepsAhead(cursors[n - 1], views[n - 1], pages[n - 1]);
      assert listed[..n] == listed[..n - 1] + [listed[n - 1]];
    }
  }

  /** Paging under concurrent change: while digests come and go on the leader
      between page reads, the listing is strictly increasing, so nothing is
      yielded twice, and it yields every digest present throughout. */
  lemma ListingIsComplete(cursors: seq<Cursor>, views: seq<set<Digest>>, pages: seq<seq<Digest>>, listed: seq<Digest>, d: Digest)
    requires Listing(cursors, views, pages, listed)
    ensures Increasing(listed)
    ensures (forall i :: 0 <= i < |views| ==> d in views[i]) ==> d in listed
  {
    var n := |listed|;
    ListingPrefix(cursors, views, pages, listed, n, d);
    NextKeepsAhead(cursors[n], views[n], pages[n]);
    assert listed[..n] == listed;
  }

  /** Nothing is invented: a yielded digest was on the leader when its page was read. */
  lemma {:induction false} YieldedWasListed(cursors: seq<Cursor>, views: seq<set<Digest>>, pages: seq<seq<Digest>>, listed: seq<Digest>, n: nat, d: Digest)
    requires Listing(cursors, views, pages, listed) && n < |cursors|
    ensures d in listed[..n] || d in cursors[n].buf ==> exists i :: 0 <= i < n && d in views[i]
  {
    if n > 0 {
      YieldedWasListed(cursors, views, pages, listed, n - 1, d);
      assert listed[..n] == listed[..n - 1] + [listed[n - 1]];
      var c := cursors[n - 1];
      var buf := if c.buf == [] then pages[n - 1] else c.buf;
      assert buf == [listed[n - 1]] + cursors[n].buf;
      if (d in listed[..n] || d in cursors[n].buf) && d !in listed[..n - 1] && d !in c.buf {
        assert d in pages[n - 1] && d in views[n - 1];
      }
    }
  }

  // ----- the cursor object -----

  class RemotePages {
    var buf: seq<Digest>
    var after: int
    var done: bool

    constructor ()
      ensures View() == START
    {
      buf, after, done := [], -1, false;
    }

    ghost function View(): Cursor
      reads this
    {
      Cursor(buf, after, done)
    }

    method NextDigest(page: Result<seq<Digest>, string>) returns (r: Result<Option<Digest>, string>)
      modifies this
      ensures (View(), r) == Next(old(View()), page)
    {
      var asked := false;
      while true
        invariant !asked ==> View() == old(View())
        invariant asked ==> NeedsPage(old(View())) && page.Success? && page.value != [] && View() == old(View()).(buf := page.value)
        decreases !asked
      {
        if buf != [] {
          var d := buf[0];
          buf := buf[1..];
          after := d;
          return Success(Some(d));
        }
        if done {
          return Success(None);
        }
        if page.Failure? {
          return Failure(page.error);
        }
        if page.value == [] {
          done := true;
          return Success(None);
        }
        buf := page.value;
        asked := true;
      }
    }
  }
}
