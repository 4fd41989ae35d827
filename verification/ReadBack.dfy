/** Pushing datasets and reading them back: the client loop over the pages of a query, and the
whole way from the pushes through the archive to the checker. */
module ReadBack {
  import opened Basics
  import opened QueryCursor
  import opened SequenceCheck
  import opened DatasetIO

  ghost function Flatten(pages: seq<seq<Doc>>): seq<Doc> {
    if pages == [] then [] else Flatten(pages[..|pages| - 1]) + pages[|pages| - 1]
  }

  /** Pages of exactly len documents, save that the last may be shorter, but never empty. */
  ghost predicate Full(pages: seq<seq<Doc>>, len: nat) {
    && (forall i :: 0 <= i < |pages| ==> 0 < |pages[i]| <= len)
    && (forall i :: 0 <= i < |pages| - 1 ==> |pages[i]| == len)
  }

  /** Half way: these pages were served, and that is left. */
  ghost predicate Served(pages: seq<seq<Doc>>, len: nat, all: seq<Doc>, left: seq<Doc>) {
    && Flatten(pages) + left == all && Full(pages, len)
    && (left != [] ==> forall i :: 0 <= i < |pages| ==> |pages[i]| == len)
  }

  lemma ServeNext(pages: seq<seq<Doc>>, len: nat, all: seq<Doc>, left: seq<Doc>)
    requires Served(pages, len, all, left) && left != [] && 0 < len
    ensures var page := Take(left, len);
            && Served(pages + [page], len, all, left[|page|..])
            && Flatten(pages + [page]) == Flatten(pages) + page
            && |left[|page|..]| < |left|
  {
    var page := Take(left, len);
    assert (pages + [page])[..|pages|] == pages;
    assert Flatten(pages) + left == (Flatten(pages) + page) + left[|page|..];
  }

  function AsItems(docs: seq<Doc>): (items: seq<Item>)
    ensures |items| == |docs|
  {
    seq(|docs|, i requires 0 <= i < |docs| => Item(Some(docs[i].run), Some(docs[i].seqId)))
  }

  ghost predicate Checked(run: Word, before: Counters, docs: seq<Doc>, after: Counters) {
    after == CheckAll(run, before, AsItems(docs), |docs|)
  }

  lemma StartPages(run: Word, c: Counters, len: nat, all: seq<Doc>)
    ensures Served([], len, all, all) && Checked(run, c, Flatten([]), c) && Flatten([]) == []
  {
    assert [] + all == all;
  }

  lemma CheckedNext(run: Word, before: Counters, docs: seq<Doc>, mid: Counters, page: seq<Doc>)
    requires Checked(run, before, docs, mid)
    ensures Checked(run, before, docs + page, CheckAll(run, mid, AsItems(page), |page|))
  {
    hide CheckAll, AsItems;
    CheckConcat(run, before, AsItems(docs), AsItems(page), |page|);
    ItemsConcat(docs, page);
  }

  lemma ItemsConcat(a: seq<Doc>, b: seq<Doc>)
    ensures AsItems(a + b) == AsItems(a) + AsItems(b)
  {}

  /** The client loop: it ends, its pages put together are what the cursor had to deliver, and the
      counters threaded from page to page are those of one pass over all of it. */
  method ReadPages(io: DatasetIO, id: nat, before: Counters)
    returns (pages: seq<seq<Doc>>, total: nat, after: Counters)
    requires io.Valid()
    modifies io`cursors, io`released, if id in io.cursors then {io.cursors[id].cursor} else {}
    ensures io.Valid() && io.Left(id) == []
    ensures Flatten(pages) == old(io.Left(id)) && total == |Flatten(pages)|
    ensures id in old(io.cursors) ==> Full(pages, old(io.cursors[id].pageLen))
    ensures Checked(io.runId, before, Flatten(pages), after)
  {
    hide Cursor.Rest, Cursor.Valid, Tracked, CheckAll, AsItems, Take, Flatten, Served, Checked;
    ghost var cursors, all := io.cursors, io.Left(id);
    ghost var len := if id in cursors then cursors[id].pageLen else 1;
    pages, total, after := [], 0, before;
    StartPages(io.runId, before, len, all);
    var more := io.QueryHasNext(id);
    while more
      invariant io.Valid()
      invariant id in io.cursors ==> id in cursors && io.cursors[id] == cursors[id]
      invariant Served(pages, len, all, io.Left(id))
      invariant more <==> io.Left(id) != []
      invariant Checked(io.runId, before, Flatten(pages), after) && total == |Flatten(pages)|
      decreases |io.Left(id)|
    {
      ghost var left := io.Left(id);
      var page := io.GetNextPage(id);
      CheckedNext(io.runId, before, Flatten(pages), after, page);
      after := CheckData(io.runId, AsItems(page), after);
      ServeNext(pages, len, all, left);
      pages, total := pages + [page], total + |page|;
      more := io.QueryHasNext(id);
    }
    ServedAll(pages, len, all);
  }

  lemma ServedAll(pages: seq<seq<Doc>>, len: nat, all: seq<Doc>)
    requires Served(pages, len, all, [])
    ensures Flatten(pages) == all && Full(pages, len)
  {}

  // ---------------------------------------------------------------- the whole way

  /** The i-th of several pushes of one dataset, the first of which gets id k. */
  function Pushed(ds: Item, run: Word, k: Word, i: nat): Item {
    Stamped(ds, run, (k + i) % U64)
  }

  /** The client reports its progress every tenth part of the loops; for less than ten loops that
      part is 0, and taking the remainder by it kills the client after the first push. */
  predicate Dies(loops: nat) {
    1 <= loops <= 9
  }

  /** The push loop: every push of the dataset is numbered one above the one before. */
  method PushAll(io: DatasetIO, t: nat, loops: nat) returns (stored: seq<Item>, dead: bool)
    requires io.Valid() && t in io.datasets && t < DATASET_TYPES
    modifies io`datasets, io.pkids
    ensures io.Valid() && (dead <==> Dies(loops))
    ensures |stored| == if dead then 1 else loops
    ensures forall i :: 0 <= i < |stored| ==>
              stored[i] == Pushed(old(io.datasets[t]), io.runId, old(io.pkids[t]), i)
  {
    hide Tracked;
    ghost var ds, k := io.datasets[t], io.pkids[t];
    var tenpercent := loops / 10;
    stored := [];
    Next(k, -1);
    for cnt := 0 to loops
      invariant io.Valid() && |stored| == cnt && t in io.datasets
      invariant io.datasets[t] == (if cnt == 0 then ds else stored[cnt - 1])
      invariant io.pkids[t] == (k + cnt) % U64
      invariant forall i :: 0 <= i < cnt ==> stored[i] == Pushed(ds, io.runId, k, i)
      invariant 0 < cnt ==> tenpercent != 0
    {
      Next(k, cnt);
      var item := io.PushDataset(t);
      stored := stored + [item];
      if tenpercent == 0 { return stored, true; }
    }
    dead := false;
  }

  /** The archive's documents for pushes that did not wrap their ids. */
  function Archive(run: nat, k: nat, n: nat): (docs: seq<Doc>)
    requires k + n <= MAX_ID
    ensures |docs| == n
  {
    seq(n, i requires 0 <= i < n => Doc(run, k + i))
  }

  lemma PushedAreArchived(ds: Item, run: Word, k: Word, n: nat, stored: seq<Item>)
    requires k + n <= MAX_ID && |stored| == n
    requires forall i :: 0 <= i < n ==> stored[i] == Pushed(ds, run, k, i)
    ensures AsItems(Archive(Stamped(ds, run, k).run.value, k, n)) == stored
  {
    forall i | 0 <= i < n ensures stored[i].seqId == Some(k + i) { Unwrap(k + i); }
  }

  lemma PushedChecked(ds: Item, run: Word, k: Word, n: nat, stored: seq<Item>)
    requires k + n <= U64 && |stored| == n
    requires forall i :: 0 <= i < n ==> stored[i] == Pushed(ds, run, k, i)
    ensures CheckAll(run, NO_COUNTS, stored, n).errors == 0 <==>
            n == 0 || (k == 0 && ds.run in {None, Some(run)})
  {
    ZeroErrorsIff(run, NO_COUNTS, stored);
    Unwrap(k);
    if 0 < n { assert stored[0] == Pushed(ds, run, k, 0); }
  }

  lemma ArchiveDelivered(run: nat, k: nat, n: nat, pageLen: nat, faults: set<nat>)
    requires 0 < pageLen && k + n <= MAX_ID
    ensures Pageable(Archive(run, k, n), pageLen)
    ensures var got := Deliver(Archive(run, k, n), 0, pageLen, faults, 0);
            && got <= Archive(run, k, n)
            && (|got| == n <==> Clean(faults, 0, Pages(n, pageLen)))
  {
    var docs := Archive(run, k, n);
    SmallIdsReadable(docs, 0, pageLen);
    FaultsCutShort(docs, 0, pageLen, faults, 0);
    assert docs[0..] == docs;
  }

  /** What the client makes of what it got back: the checker's errors, and one more if the number
      of datasets is not that of the pushes. */
  lemma Verdict(ds: Item, run: Word, k: Word, n: nat, stored: seq<Item>, got: seq<Doc>, after: Counters)
    requires k + n <= MAX_ID && |stored| == n
    requires forall i :: 0 <= i < n ==> stored[i] == Pushed(ds, run, k, i)
    requires got <= Archive(Stamped(ds, run, k).run.value, k, n) && Checked(run, NO_COUNTS, got, after)
    ensures after.errors == 0 && |got| == n <==>
            |got| == n && (n == 0 || (k == 0 && ds.run in {None, Some(run)}))
  {
    hide CheckAll, Archive, AsItems, Pushed;
    PushedAreArchived(ds, run, k, n, stored);
    PushedChecked(ds, run, k, n, stored);
    if |got| == n { assert got == Archive(Stamped(ds, run, k).run.value, k, n); }
  }

  /** The client: it registers, pushes n times, reads back through pages of any length, or unpaged
      with length 0, and deinitialises. Registered, it dies iff n is 1 to 9; None stands for that.
      Otherwise it reports no error iff it is registered and n is 0, or there was a cursor, no fetch of
      a page failed, numbering started at 0 and the dataset had no run id of its own but the client's.
      Unless it dies, every cursor it opened is released, once. */
  method PushAndCheck(
    io: DatasetIO, t: nat, n: nat, pageLen: nat, faults: set<nat>, registered: bool, connected: bool)
    returns (errors: Option<nat>)
    requires io.Valid() && t in io.datasets && t < DATASET_TYPES && io.pkids[t] + n <= MAX_ID
    modifies io, io.pkids
    ensures errors.None? <==> registered && Dies(n)
    ensures errors == Some(0) <==>
            && registered
            && (|| n == 0
                || (&& !Dies(n) && connected
                    && Clean(faults, 0, Pages(n, if pageLen == 0 then DEFAULT_PAGE else pageLen))
                    && old(io.pkids[t]) == 0 && old(io.datasets[t].run) in {None, Some(io.runId)}))
    ensures errors.Some? && !old(io.deinitialized) ==>
              && io.Valid() && NoRepeats(io.released)
              && forall c :: c in io.created ==> c in io.released
  {
    hide Tracked, Cursor.Valid;
    if registered {
      errors := PushAndRead(io, t, n, pageLen, faults, connected);
      if errors.None? { return; }
    } else {
      errors := Some(1);
    }
    io.Deinit();
    ReleasedOnce(io.cursors, io.created, io.released);
  }

  lemma ReleasedOnce(cursors: map<nat, Entry>, created: set<Cursor>, released: seq<Cursor>)
    requires Tracked(cursors, created, released)
    ensures NoRepeats(released)
  {}

  method PushAndRead(
    io: DatasetIO, t: nat, n: nat, pageLen: nat, faults: set<nat>, connected: bool)
    returns (errors: Option<nat>)
    requires io.Valid() && t in io.datasets && t < DATASET_TYPES && io.pkids[t] + n <= MAX_ID
    modifies io, io.pkids
    ensures io.Valid() && io.deinitialized == old(io.deinitialized)
    ensures errors.None? <==> Dies(n)
    ensures errors == Some(0) <==>
            || n == 0
            || (&& !Dies(n) && connected
                && Clean(faults, 0, Pages(n, if pageLen == 0 then DEFAULT_PAGE else pageLen))
                && old(io.pkids[t]) == 0 && old(io.datasets[t].run) in {None, Some(io.runId)})
  {
    hide Cursor.Rest, Cursor.Valid, Tracked, CheckAll, AsItems, Deliver, Archive, Pages, Clean;
    hide Ordered, Readable, Pushed, Checked;
    ghost var ds, k := io.datasets[t], io.pkids[t];
    var run, first := Stamped(io.datasets[t], io.runId, 0).run.value, io.pkids[t];
    var stored, dead := PushAll(io, t, n);
    if dead { return None; }
    var archive := Archive(run, first, n);
    var total, after;
    ghost var got: seq<Doc>;
    ghost var len := if pageLen == 0 then DEFAULT_PAGE else pageLen;
    ArchiveDelivered(run, first, n, len, faults);
    if pageLen == 0 {
      var items := io.QueryAll(archive, faults, connected);
      total, got := |items|, items;
      after := CheckData(io.runId, AsItems(items), NO_COUNTS);
      CheckedWhole(io.runId, items, after);
    } else {
      var id := io.OpenQuery(archive, faults, pageLen, connected);
      var pages;
      got := io.Left(id);
      pages, total, after := ReadPages(io, id, NO_COUNTS);
    }
    Verdict(ds, io.runId, k, n, stored, got, after);
    errors := Some(after.errors + if total != n then 1 else 0);
  }

  lemma CheckedWhole(run: Word, docs: seq<Doc>, after: Counters)
    requires after == CheckAll(run, NO_COUNTS, AsItems(docs), |AsItems(docs)|)
    ensures Checked(run, NO_COUNTS, docs, after)
  {}
}
