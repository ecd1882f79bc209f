/** The search page: blocks of results are fetched from the server, and one page at a time is cut from the block. */
module Paging {
  import opened Feed
  import P = PlayerModel
  import T = PlaybackTour

  const LIMIT := 200

  /** Array.prototype.slice for non-negative bounds. */
  function Slice(s: seq<nat>, from: nat, to: nat): seq<nat> {
    var end := if to < |s| then to else |s|;
    if from < end then s[from..end] else []
  }

  function Start(pageIndex: nat, pageSize: nat): nat {
    pageIndex * pageSize
  }

  /** The offset of the block that holds a row. */
  function BlockOf(row: nat): nat {
    row / LIMIT * LIMIT
  }

  /** The rows a page should show: the results from its start on, with nothing after the last one. */
  ghost predicate ShowsPage(rows: seq<Option<nat>>, all: seq<nat>, pageIndex: nat, pageSize: nat) {
    && |rows| == pageSize
    && forall i | 0 <= i < pageSize ::
         rows[i] == var g := Start(pageIndex, pageSize) + i; if g < |all| then Some(all[g]) else None
  }

  /** The page lies in one block, or after the last result. */
  predicate Whole(all: seq<nat>, pageIndex: nat, pageSize: nat)
    requires pageSize > 0
  {
    var from := Start(pageIndex, pageSize);
    from / LIMIT == (from + pageSize - 1) / LIMIT || |all| <= from
  }

  /** The component's fields; `sent` holds the queries passed to the service. */
  class Search {
    var pageIndex: nat            // paginator
    var paginatorSize: nat        // paginator
    var pageSize: nat
    var results: seq<Option<nat>>
    var offset: nat
    var list: Option<P.PlaybackList>
    var pending: Option<nat>      // callPending
    var livefeedPlayback: bool
    var descending: bool
    var sent: seq<P.Query>

    ghost predicate Valid()
      reads this
    {
      0 < pageSize <= LIMIT && 0 < paginatorSize <= LIMIT && |results| == pageSize
    }

    constructor (saved: nat)
      requires 0 < saved <= LIMIT
      ensures Valid() && pageSize == paginatorSize == saved && offset == 0 && list == None && sent == []
      ensures pending == None && !livefeedPlayback && pageIndex == 0
    {
      pageIndex, paginatorSize, pageSize := 0, saved, saved;
      results := seq(saved, _ => None);
      offset, list, pending, livefeedPlayback, descending, sent := 0, None, None, false, true, [];
    }

    method SearchCalls()
      modifies this`offset, this`sent
      ensures livefeedPlayback ==> offset == old(offset) && sent == old(sent)
      ensures !livefeedPlayback ==>
                && offset == BlockOf(Start(pageIndex, paginatorSize))
                && sent == old(sent) + [P.Query(LIMIT, offset, descending)]
    {
      if livefeedPlayback {
        return;
      }
      offset := pageIndex * paginatorSize / LIMIT * LIMIT;
      sent := sent + [P.Query(LIMIT, offset, descending)];
    }

    method RefreshResults()
      requires Valid() && paginatorSize == pageSize
      modifies this`offset, this`sent, this`results
      ensures Valid()
      ensures pending.None? && Outside(Start(pageIndex, pageSize), old(offset)) ==> results == old(results)
      ensures pending.None? && Outside(Start(pageIndex, pageSize), old(offset)) && !livefeedPlayback ==>
                && offset == BlockOf(Start(pageIndex, paginatorSize))
                && sent == old(sent) + [P.Query(LIMIT, offset, descending)]
      ensures pending.Some? || !Outside(Start(pageIndex, pageSize), old(offset)) || livefeedPlayback ==>
                offset == old(offset) && sent == old(sent)
      ensures pending.Some? || !Outside(Start(pageIndex, pageSize), old(offset)) ==>
                results == if list.Some? then Padded(PageRows(list.value.results, pageIndex, pageSize), pageSize)
                  else old(results)
    {
      var from := pageIndex * paginatorSize;
      var to := pageIndex * paginatorSize + paginatorSize - 1;
      if pending.None? && (from >= offset + LIMIT || from < offset) {
        SearchCalls();
      } else if list.Some? {
        var calls := Shown(Slice(list.value.results, from % LIMIT, to % LIMIT + 1));
        ghost var rows := PageRows(list.value.results, pageIndex, pageSize);
        PageFits(list.value.results, pageIndex, pageSize);
        assert calls == Padded(rows, |rows|);
        while |calls| < |results|
          invariant |rows| <= |calls| <= |results| && calls == Padded(rows, |calls|)
        {
          calls := calls + [None];
        }
        results := calls;
      }
    }

    method OnPageChange()
      requires Valid()
      modifies this`pageSize, this`offset, this`sent, this`results
      ensures Valid() && pageSize == paginatorSize
      ensures var out := Outside(Start(pageIndex, pageSize), old(offset));
        if pending.None? && out then
          && offset == (if livefeedPlayback then old(offset) else BlockOf(Start(pageIndex, pageSize)))
          && sent == old(sent) + if livefeedPlayback then [] else [P.Query(LIMIT, offset, descending)]
        else
          && offset == old(offset) && sent == old(sent)
          && (list.Some? ==> results == Padded(PageRows(list.value.results, pageIndex, pageSize), pageSize))
    {
      if paginatorSize != pageSize {
        pageSize := paginatorSize;
        results := seq(pageSize, _ => None);
      }
      RefreshResults();
    }

    /** The service hands over a page of results. */
    method PlaybackListEvent(l: P.PlaybackList)
      requires Valid() && paginatorSize == pageSize
      modifies this`list, this`offset, this`sent, this`results
      ensures Valid() && list == Some(l)
      ensures pending.Some? || !Outside(Start(pageIndex, pageSize), old(offset)) ==>
                offset == old(offset) && sent == old(sent) &&
                  results == Padded(PageRows(l.results, pageIndex, pageSize), pageSize)
    {
      list := Some(l);
      RefreshResults();
    }

    /** The list at hand is the block at the offset, as the server has it. */
    ghost predicate InHand(all: seq<nat>)
      reads this
    {
      list == Some(T.Serve(all, P.Query(LIMIT, offset, descending)))
    }

    /** One turn of the paginator, with the server's reply if there was a question. For every page and page size:
        a question is asked exactly when the page starts outside the block, and then the page is shown right
        if and only if it does not run over the end of its block. */
    method Turn(all: seq<nat>, index: nat, size: nat)
      requires Valid() && InHand(all) && pending.None? && !livefeedPlayback && 0 < size <= LIMIT
      requires offset % LIMIT == 0
      modifies this
      ensures Valid() && InHand(all) && pending.None? && !livefeedPlayback && offset % LIMIT == 0
      ensures pageIndex == index && pageSize == size && descending == old(descending)
      ensures |sent| == |old(sent)| + if Outside(Start(index, size), old(offset)) then 1 else 0
      ensures ShowsPage(results, all, index, size) <==> Whole(all, index, size)
    {
      pageIndex, paginatorSize := index, size;
      var prior := |sent|;
      OnPageChange();
      BlockHolds(Start(index, size));
      if |sent| > prior {
        PlaybackListEvent(T.Serve(all, sent[|sent| - 1]));
      } else {
        InBlock(Start(index, size), offset);
      }
      PageRight(all, index, size, descending);
    }
  }

  /** Whether a row lies outside the block at an offset. */
  predicate Outside(row: nat, offset: nat) {
    row >= offset + LIMIT || row < offset
  }

  /** A block asked for holds the first row of the page, so its reply asks for nothing more. */
  lemma BlockHolds(row: nat)
    ensures !Outside(row, BlockOf(row)) && BlockOf(row) % LIMIT == 0
  {
  }

  lemma InBlock(row: nat, offset: nat)
    requires offset % LIMIT == 0 && !Outside(row, offset)
    ensures offset == BlockOf(row)
  {
  }

  function Shown(s: seq<nat>): seq<Option<nat>> {
    seq(|s|, i requires 0 <= i < |s| => Some(s[i]))
  }

  ghost function PageRows(block: seq<nat>, pageIndex: nat, pageSize: nat): seq<nat>
    requires pageSize > 0
  {
    var from := Start(pageIndex, pageSize);
    Slice(block, from % LIMIT, (from + pageSize - 1) % LIMIT + 1)
  }

  ghost function Padded(rows: seq<nat>, n: nat): (r: seq<Option<nat>>)
    requires |rows| <= n
    ensures |r| == n
  {
    seq(n, i requires 0 <= i < n => if i < |rows| then Some(rows[i]) else None)
  }

  lemma PageFits(block: seq<nat>, pageIndex: nat, pageSize: nat)
    requires 0 < pageSize <= LIMIT
    ensures |PageRows(block, pageIndex, pageSize)| <= pageSize
  {
  }

  /** For every result sequence, page and page size: the rows cut from the page's block are those of the page, with
      nothing after the last result, if and only if the page lies in one block or past the end. */
  lemma PageRight(all: seq<nat>, pageIndex: nat, pageSize: nat, descending: bool)
    requires 0 < pageSize <= LIMIT
    ensures
      var block := T.Serve(all, P.Query(LIMIT, BlockOf(Start(pageIndex, pageSize)), descending)).results;
      |PageRows(block, pageIndex, pageSize)| <= pageSize &&
      (ShowsPage(Padded(PageRows(block, pageIndex, pageSize), pageSize), all, pageIndex, pageSize) <==>
       Whole(all, pageIndex, pageSize))
  {
    var from := Start(pageIndex, pageSize);
    hide Start;
    var o := BlockOf(from);
    var block := T.Serve(all, P.Query(LIMIT, o, descending)).results;
    PageFits(block, pageIndex, pageSize);
    var rows := Padded(PageRows(block, pageIndex, pageSize), pageSize);
    assert forall i | 0 <= i < |block| :: block[i] == all[o + i];
    if Whole(all, pageIndex, pageSize) {
      forall i | 0 <= i < pageSize
        ensures rows[i] == var g := from + i; if g < |all| then Some(all[g]) else None
      {
      }
    } else {
      assert rows[0] == None && from < |all|;
    }
  }

  /** When the page size divides the limit, every page is whole. */
  lemma DivisorsAreWhole(all: seq<nat>, pageIndex: nat, pageSize: nat)
    requires 0 < pageSize <= LIMIT && LIMIT % pageSize == 0
    ensures Whole(all, pageIndex, pageSize)
  {
    var k := LIMIT / pageSize;
    var q, r := pageIndex / k, pageIndex % k;
    Regroup(q, r, k, pageSize);
    Fits(r, k, pageSize);
    InOneBlock(q, r * pageSize, pageSize);
    assert Start(pageIndex, pageSize) == q * LIMIT + r * pageSize;
  }

  lemma InOneBlock(q: nat, row: nat, size: nat)
    requires 0 < size && row + size <= LIMIT
    ensures (q * LIMIT + row) / LIMIT == q && (q * LIMIT + row + size - 1) / LIMIT == q
  {
  }

  lemma Regroup(q: nat, r: nat, k: nat, size: nat)
    ensures (q * k + r) * size == q * (size * k) + r * size
  {
  }

  lemma Fits(r: nat, k: nat, size: nat)
    requires r < k
    ensures r * size + size <= size * k
  {
    assert (k - r - 1) * size >= 0;
    assert (k - r - 1) * size == size * k - r * size - size;
  }

  /** Of the offered sizes, 75 is the one that fails: its third page runs from row 150 to row 224. */
  lemma ThirdPageOf75(all: seq<nat>, descending: bool)
    requires |all| > 150
    ensures !Whole(all, 2, 75)
    ensures
      var block := T.Serve(all, P.Query(LIMIT, 0, descending)).results;
      BlockOf(Start(2, 75)) == 0 && PageRows(block, 2, 75) == []
  {
  }
}
