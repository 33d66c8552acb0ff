/** The `{page, atBound}` cursor kept for each of the two paginated lists
    (the user's assets and the offers the user made), and what a run of fetch
    sagas does to it. */
module Paging {

  /** One list's cursor: the next page to request and whether the last page was seen. */
  datatype PageCursor = PageCursor(page: nat, atBound: bool)

  /** The cursor after a reset: first page, bound not reached. */
  const Start := PageCursor(0, false)

  /** The cursor after one fetch saga received `count` results, with `limit`
      the page size: a fetch at the bound does nothing; a short page sets the
      bound and keeps the page; a full page moves to the next page. */
  function Advance(c: PageCursor, count: nat, limit: nat): (r: PageCursor)
    ensures c.atBound ==> r == c
    ensures !c.atBound ==> (r.atBound <==> count < limit)
    ensures !c.atBound ==> (r.page == c.page + 1 <==> count >= limit)
    ensures r.page == c.page || r.page == c.page + 1
  {
    if c.atBound then c
    else if count < limit then c.(atBound := true)
    else c.(page := c.page + 1)
  }

  /** The cursor after a series of successful fetches returning `counts` results. */
  function Replay(c: PageCursor, counts: seq<nat>, limit: nat): PageCursor
    decreases |counts|
  {
    if counts == [] then c else Replay(Advance(c, counts[0], limit), counts[1..], limit)
  }

  /** The pages actually requested by that series: a fetch at the bound asks for nothing. */
  function RequestedPages(c: PageCursor, counts: seq<nat>, limit: nat): seq<nat>
    decreases |counts|
  {
    if counts == [] || c.atBound then []
    else [c.page] + RequestedPages(Advance(c, counts[0], limit), counts[1..], limit)
  }

  /** How many full pages come before the first short one. */
  function FullPages(counts: seq<nat>, limit: nat): (n: nat)
    ensures n <= |counts|
    ensures forall i :: 0 <= i < n ==> counts[i] >= limit
    ensures n < |counts| ==> counts[n] < limit
    decreases |counts|
  {
    if counts == [] || counts[0] < limit then 0 else 1 + FullPages(counts[1..], limit)
  }

  /** Once at the bound, no number of further fetches changes the cursor or requests a page. */
  lemma {:induction false} BoundIsFinal(c: PageCursor, counts: seq<nat>, limit: nat)
    requires c.atBound
    ensures Replay(c, counts, limit) == c
    ensures RequestedPages(c, counts, limit) == []
    decreases |counts|
  {
    if counts != [] {
      BoundIsFinal(Advance(c, counts[0], limit), counts[1..], limit);
    }
  }

  /** From an open cursor at page `p`, the page advances once per full page
      until the first short page, which sets the bound. */
  lemma {:induction false} ReplayCountsFullPages(p: nat, counts: seq<nat>, limit: nat)
    ensures Replay(PageCursor(p, false), counts, limit)
         == PageCursor(p + FullPages(counts, limit), FullPages(counts, limit) < |counts|)
    decreases |counts|
  {
    if counts != [] {
      if counts[0] < limit {
        BoundIsFinal(PageCursor(p, true), counts[1..], limit);
      } else {
        ReplayCountsFullPages(p + 1, counts[1..], limit);
      }
    }
  }

  /** From an open cursor at page `p`, the pages requested are p, p+1, ... with
      no gap and no repeat, one per fetch up to and including the first short page. */
  lemma {:induction false} RequestedPagesAreConsecutive(p: nat, counts: seq<nat>, limit: nat)
    ensures var n := FullPages(counts, limit);
            var pages := RequestedPages(PageCursor(p, false), counts, limit);
            |pages| == (if n < |counts| then n + 1 else n) &&
            forall i :: 0 <= i < |pages| ==> pages[i] == p + i
    decreases |counts|
  {
    if counts != [] {
      if counts[0] < limit {
        BoundIsFinal(PageCursor(p, true), counts[1..], limit);
      } else {
        RequestedPagesAreConsecutive(p + 1, counts[1..], limit);
      }
    }
  }
}
