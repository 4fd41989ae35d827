/** Reading history back through a server-side page cursor.

The store answers a page query with the first documents, in (run id, sequence id) order, that are
not below a start position. The cursor continues from one above the position of the last document
it received, so documents that share a position are lost when a page boundary falls between them. */
module QueryCursor {
  import opened Basics
  import RR = RoundRobin

  const MAX_ID: nat := 0x7FFF_FFFF_FFFF_FFFF      // ids are signed 64-bit integers

  type Id = x: nat | x <= MAX_ID

  datatype Doc = Doc(run: nat, seqId: Id)

  predicate Below(a: Doc, b: Doc) {
    a.run < b.run || (a.run == b.run && a.seqId < b.seqId)
  }

  ghost predicate Ordered(docs: seq<Doc>) {
    forall i, j :: 0 <= i < j < |docs| ==> !Below(docs[j], docs[i])
  }

  /** The first index from i on that is not below a position. */
  function Scan(docs: seq<Doc>, at: Doc, i: nat): (r: nat)
    requires i <= |docs|
    ensures i <= r <= |docs|
    decreases |docs| - i
  {
    if i == |docs| || !Below(docs[i], at) then i else Scan(docs, at, i + 1)
  }

  /** What the filter of the page query selects from. */
  lemma {:induction false} ScanFinds(docs: seq<Doc>, at: Doc, i: nat)
    requires i <= |docs|
    ensures var r := Scan(docs, at, i);
            && (forall j :: i <= j < r ==> Below(docs[j], at))
            && (r < |docs| ==> !Below(docs[r], at))
    decreases |docs| - i
  {
    if i < |docs| && Below(docs[i], at) { ScanFinds(docs, at, i + 1); }
  }

  /** The position one above a document, where the next page starts. Above the largest id the
      addition wraps to the smallest one, which finds what 0 finds. */
  function After(d: Doc): Doc {
    Doc(d.run, if d.seqId == MAX_ID then 0 else d.seqId + 1)
  }

  /** One page query of the object storage. */
  function FindObject(docs: seq<Doc>, at: Doc, limit: nat): seq<Doc> {
    var i := Scan(docs, at, 0);
    if |docs| - i < limit then docs[i..] else docs[i..i + limit]
  }

  /** The next page starts further on iff this one does not end with the largest id, and then it
      passes over the documents of equal position. */
  lemma ScanPassesEqual(docs: seq<Doc>, i: nat)
    requires Ordered(docs) && i < |docs|
    ensures i < Scan(docs, After(docs[i]), 0) <==> docs[i].seqId < MAX_ID
    ensures docs[i].seqId < MAX_ID ==>
              (Scan(docs, After(docs[i]), 0) == i + 1
               <==> (i + 1 == |docs| || docs[i] != docs[i + 1]))
  {
    var at := After(docs[i]);
    ScanFinds(docs, at, 0);
    if docs[i].seqId < MAX_ID {
      assert forall j :: 0 <= j <= i ==> Below(docs[j], at);
      if i + 1 < |docs| {
        assert !Below(docs[i + 1], docs[i]);
        assert Below(docs[i + 1], at) <==> docs[i] == docs[i + 1];
      }
    }
  }

  /** No full page that a cursor reads from index i on ends with the largest id. */
  ghost predicate Readable(docs: seq<Doc>, i: nat, pageLen: nat)
    requires 0 < pageLen && Ordered(docs) && i <= |docs|
    decreases |docs| - i
  {
    || |docs| - i < pageLen
    || (&& docs[i + pageLen - 1].seqId < MAX_ID
        && (ScanPassesEqual(docs, i + pageLen - 1);
            Readable(docs, Scan(docs, After(docs[i + pageLen - 1]), 0), pageLen)))
  }

  /** Documents in order that pages of this length get through. */
  ghost predicate Pageable(docs: seq<Doc>, pageLen: nat) {
    0 < pageLen && Ordered(docs) && Readable(docs, 0, pageLen)
  }

  lemma {:induction false} SmallIdsReadable(docs: seq<Doc>, i: nat, pageLen: nat)
    requires 0 < pageLen && Ordered(docs) && i <= |docs|
    requires forall k :: 0 <= k < |docs| ==> docs[k].seqId < MAX_ID
    ensures Readable(docs, i, pageLen)
    decreases |docs| - i
  {
    if |docs| - i >= pageLen {
      ScanPassesEqual(docs, i + pageLen - 1);
      SmallIdsReadable(docs, Scan(docs, After(docs[i + pageLen - 1]), 0), pageLen);
    }
  }

  lemma NothingBelowZero(docs: seq<Doc>)
    ensures Scan(docs, Doc(0, 0), 0) == 0
  {}

  /** Where a resuming cursor starts. */
  function ResumesAt(docs: seq<Doc>, seqId: nat, run: nat): (i: nat)
    ensures i <= |docs|
  {
    if seqId == 0 then 0 else Scan(docs, Doc(run, if seqId <= MAX_ID then seqId else 0), 0)
  }

  /** The documents before the start of a page query are those of an earlier run, or of the same run
      with a smaller sequence id. */
  lemma ScanSplits(docs: seq<Doc>, at: Doc, j: nat)
    requires Ordered(docs) && j < |docs|
    ensures j < Scan(docs, at, 0) <==>
            docs[j].run < at.run || (docs[j].run == at.run && docs[j].seqId < at.seqId)
  {
    ScanFinds(docs, at, 0);
    var r := Scan(docs, at, 0);
    if r < j { assert !Below(docs[j], docs[r]); }
  }

  /** A cursor resumed at a position skips exactly the documents before it; with sequence id 0 it skips
      nothing, and above the largest id it skips only the earlier runs. */
  lemma ResumeSkips(docs: seq<Doc>, seqId: nat, run: nat, j: nat)
    requires Ordered(docs) && j < |docs|
    ensures j < ResumesAt(docs, seqId, run) <==>
            && 0 < seqId
            && (docs[j].run < run || (docs[j].run == run && docs[j].seqId < seqId <= MAX_ID))
  {
    hide Scan;
    if 0 < seqId { ScanSplits(docs, Doc(run, if seqId <= MAX_ID then seqId else 0), j); }
  }

  /** What a cursor delivers from index i and fetch number `fetch` on. A fetch in `faults` fails
      and ends the query, and so does a page that is not full. */
  ghost function Deliver(docs: seq<Doc>, i: nat, pageLen: nat, faults: set<nat>, fetch: nat): seq<Doc>
    requires 0 < pageLen && Ordered(docs) && i <= |docs| && Readable(docs, i, pageLen)
    decreases |docs| - i
  {
    if fetch in faults then []
    else if |docs| - i < pageLen then docs[i..]
    else
      ScanPassesEqual(docs, i + pageLen - 1);
      docs[i..i + pageLen]
      + Deliver(docs, Scan(docs, After(docs[i + pageLen - 1]), 0), pageLen, faults, fetch + 1)
  }

  // ---------------------------------------------------------------- the class

  datatype Phase = NotStarted | Started | Ended

  class Cursor {
    const docs: seq<Doc>             // the store's documents for this query, while it is read
    const faults: set<nat>           // numbers of the fetches that fail
    const pageLen: nat
    var phase: Phase
    var page: seq<Doc>
    var fetched: nat
    var last: Doc                    // last_record_found_seq
    var fetches: nat
    var apiError: bool

    ghost predicate Valid()
      reads this
    {
      && 0 < pageLen && Ordered(docs)
      && (phase != Ended ==> Readable(docs, Scan(docs, Start(), 0), pageLen))
      && (phase == NotStarted ==> page == [] && fetched == 0 && last == Doc(0, 0))
    }

    /** Where the next fetch starts. */
    function Start(): Doc
      reads this
    {
      if phase == NotStarted then last else After(last)
    }

    /** What the fetches still to come deliver. */
    ghost function Future(): seq<Doc>
      requires Valid()
      reads this
    {
      if phase == Ended then []
      else Deliver(docs, Scan(docs, Start(), 0), pageLen, faults, fetches)
    }

    /** What the cursor still delivers. */
    ghost function Rest(): seq<Doc>
      requires Valid()
      reads this
    {
      (if fetched <= |page| then page[fetched..] else []) + Future()
    }

    constructor (docs: seq<Doc>, faults: set<nat>, pageLen: nat)
      requires Pageable(docs, pageLen)
      ensures Valid() && Rest() == Deliver(docs, 0, pageLen, faults, 0)
    {
      hide Deliver, Scan, Ordered, Readable;
      NothingBelowZero(docs);
      this.docs, this.faults, this.pageLen := docs, faults, pageLen;
      phase, page, fetched, last, fetches, apiError := NotStarted, [], 0, Doc(0, 0), 0, false;
    }

    /** A cursor that resumes at a position. With sequence id 0 it starts over, whatever the run; one
        above the largest id, as a signed number, finds what 0 finds. */
    constructor Resume(docs: seq<Doc>, faults: set<nat>, pageLen: nat, seqId: nat, run: nat)
      requires 0 < pageLen && Ordered(docs) && Readable(docs, ResumesAt(docs, seqId, run), pageLen)
      ensures Valid()
      ensures Rest() == Deliver(docs, ResumesAt(docs, seqId, run), pageLen, faults, 0)
    {
      hide Deliver, Scan, Ordered, Readable;
      NothingBelowZero(docs);
      this.docs, this.faults, this.pageLen := docs, faults, pageLen;
      phase, page, fetched, last, fetches, apiError := NotStarted, [], 0, Doc(0, 0), 0, false;
      if 0 < seqId {
        phase, last := Started, Doc(run, if seqId <= MAX_ID then seqId - 1 else MAX_ID);
      }
    }

    /** Reports whether anything is left, fetching a page when the current one is used up. */
    method HasNext() returns (more: bool)
      requires Valid()
      modifies this
      ensures Valid() && Rest() == old(Rest())
      ensures more <==> Rest() != []
      ensures more ==> fetched < |page|
    {
      if phase != Ended && fetched >= |page| {
        FetchNewPage();
      }
      more := fetched < |page|;
    }

    /** None stands for the exception of a cursor whose page is used up. */
    method Next() returns (d: Option<Doc>)
      requires Valid()
      modifies this
      ensures Valid()
      ensures d.None? <==> old(fetched >= |page|)
      ensures d.None? ==> Rest() == old(Rest())
      ensures d.Some? ==> old(Rest()) == [d.value] + Rest()
    {
      if fetched >= |page| { return None; }
      d := Some(page[fetched]);
      ghost var future := Future();
      fetched := fetched + 1;
      assert Future() == future;
    }

    method FetchNewPage()
      requires Valid() && phase != Ended && fetched >= |page|
      modifies this
      ensures Valid() && phase != NotStarted
      ensures Rest() == old(Rest())
      ensures fetched < |page| <==> Rest() != []
      ensures fetches == old(fetches) + 1 && (apiError <==> old(fetches) in faults)
    {
      hide Deliver, Scan, Ordered, Readable;
      ghost var all := Future();
      assert Rest() == all;
      page := [];
      if phase == NotStarted {
        phase := Started;
      } else {
        last := After(last);
      }
      hide After;
      fetches := fetches + 1;
      var answer := FetchData(docs, last, pageLen, faults, fetches - 1);
      if answer.None? {
        apiError := true;
        phase := Ended;
        assert all == [] && Rest() == [];
      } else {
        apiError := false;
        TakePage(answer.value, all);
      }
    }

    /** The new page, which is the last one if it is short. */
    method TakePage(got: seq<Doc>, ghost all: seq<Doc>)
      requires phase == Started && 0 < pageLen && Ordered(docs)
      requires if |got| < pageLen then all == got
               else && |got| == pageLen
                    && Readable(docs, Scan(docs, After(got[pageLen - 1]), 0), pageLen)
                    && all == got + Deliver(docs, Scan(docs, After(got[pageLen - 1]), 0),
                                            pageLen, faults, fetches)
      modifies this`page, this`fetched, this`last, this`phase
      ensures Valid() && phase != NotStarted && page == got && fetched == 0
      ensures Rest() == all
      ensures got == [] ==> all == []
    {
      hide Deliver, Scan, Ordered, Readable, After;
      page := got;
      fetched := 0;
      if page != [] {
        last := page[|page| - 1];
      }
      if |page| < pageLen {
        phase := Ended;
      }
      assert all == page + Future();
      assert page[0..] == page;
    }
  }

  /** One page query over the network; None is an error answer. */
  method FetchData(docs: seq<Doc>, at: Doc, pageLen: nat, faults: set<nat>, fetch: nat)
    returns (answer: Option<seq<Doc>>)
    requires 0 < pageLen && Ordered(docs) && Readable(docs, Scan(docs, at, 0), pageLen)
    ensures answer.None? <==> fetch in faults
    ensures var all := Deliver(docs, Scan(docs, at, 0), pageLen, faults, fetch);
            if answer.None? then all == []
            else if |answer.value| < pageLen then all == answer.value
            else |answer.value| == pageLen
                 && Readable(docs, Scan(docs, After(answer.value[pageLen - 1]), 0), pageLen)
                 && all == answer.value
                           + Deliver(docs, Scan(docs, After(answer.value[pageLen - 1]), 0),
                                     pageLen, faults, fetch + 1)
  {
    hide Deliver, Scan, Ordered, Readable;
    ghost var i := Scan(docs, at, 0);
    DeliverOpens(docs, i, pageLen, faults, fetch);
    if fetch in faults { return None; }
    answer := Some(FindObject(docs, at, pageLen));
  }

  /** One fetch: it fails, or delivers the last page, or a full page and what comes after it. */
  lemma DeliverOpens(docs: seq<Doc>, i: nat, pageLen: nat, faults: set<nat>, fetch: nat)
    requires 0 < pageLen && Ordered(docs) && i <= |docs| && Readable(docs, i, pageLen)
    ensures var all := Deliver(docs, i, pageLen, faults, fetch);
            if fetch in faults then all == []
            else if |docs| - i < pageLen then all == docs[i..]
            else
              var page := docs[i..i + pageLen];
              && Readable(docs, Scan(docs, After(page[pageLen - 1]), 0), pageLen)
              && all == page + Deliver(docs, Scan(docs, After(page[pageLen - 1]), 0),
                                    pageLen, faults, fetch + 1)
  {
    if |docs| - i >= pageLen { assert docs[i..i + pageLen][pageLen - 1] == docs[i + pageLen - 1]; }
  }

  // ---------------------------------------------------------------- is everything delivered?

  /** No page boundary falls between two documents of the same position. */
  ghost predicate NoTieSplit(docs: seq<Doc>, i: nat, pageLen: nat)
    requires 0 < pageLen
  {
    forall b :: i < b < |docs| && (b - i) % pageLen == 0 ==> docs[b - 1] != docs[b]
  }

  lemma Shift(b: int, p: nat)
    requires 0 < p
    ensures (b - p) % p == b % p
  {
    RR.DivModOf(b / p - 1, p, b % p);
    assert (b / p - 1) * p + b % p == b - p;
  }

  lemma NoTieSplitNext(docs: seq<Doc>, i: nat, pageLen: nat)
    requires 0 < pageLen && i + pageLen <= |docs|
    ensures NoTieSplit(docs, i, pageLen) <==>
            && (i + pageLen == |docs| || docs[i + pageLen - 1] != docs[i + pageLen])
            && NoTieSplit(docs, i + pageLen, pageLen)
  {
    RR.DivModOf(1, pageLen, 0);
    if NoTieSplit(docs, i, pageLen) {
      forall b | i + pageLen < b < |docs| && (b - (i + pageLen)) % pageLen == 0
        ensures docs[b - 1] != docs[b]
      {
        Shift(b - i, pageLen);
      }
      assert i + pageLen < |docs| ==> (i + pageLen - i) % pageLen == 0;
    } else {
      var b :| i < b < |docs| && (b - i) % pageLen == 0 && docs[b - 1] == docs[b];
      Shift(b - i, pageLen);
      if b < i + pageLen { RR.DivModOf(0, pageLen, b - i); }
      assert (b - (i + pageLen)) % pageLen == 0;
    }
  }

  lemma OnlyPage(docs: seq<Doc>, i: nat, pageLen: nat)
    requires 0 < pageLen && |docs| - i < pageLen
    ensures NoTieSplit(docs, i, pageLen)
  {
    if !NoTieSplit(docs, i, pageLen) {
      var b :| i < b < |docs| && (b - i) % pageLen == 0 && docs[b - 1] == docs[b];
      RR.DivModOf(0, pageLen, b - i);
      assert false;
    }
  }

  lemma {:induction false} DeliverNoMore(
    docs: seq<Doc>, i: nat, pageLen: nat, faults: set<nat>, fetch: nat)
    requires 0 < pageLen && Ordered(docs) && i <= |docs| && Readable(docs, i, pageLen)
    ensures |Deliver(docs, i, pageLen, faults, fetch)| <= |docs| - i
    decreases |docs| - i
  {
    if fetch !in faults && |docs| - i >= pageLen {
      ScanPassesEqual(docs, i + pageLen - 1);
      DeliverNoMore(docs, Scan(docs, After(docs[i + pageLen - 1]), 0), pageLen, faults, fetch + 1);
    }
  }

  /** Without failures the cursor delivers every document iff no page boundary splits a tie. */
  lemma {:induction false} DeliversAllIff(docs: seq<Doc>, i: nat, pageLen: nat, fetch: nat)
    requires 0 < pageLen && Ordered(docs) && i <= |docs| && Readable(docs, i, pageLen)
    ensures Deliver(docs, i, pageLen, {}, fetch) == docs[i..] <==> NoTieSplit(docs, i, pageLen)
    decreases |docs| - i
  {
    if |docs| - i < pageLen {
      OnlyPage(docs, i, pageLen);
    } else {
      var n := i + pageLen;
      var next := Scan(docs, After(docs[n - 1]), 0);
      ScanPassesEqual(docs, n - 1);
      NoTieSplitNext(docs, i, pageLen);
      DeliversAllIff(docs, next, pageLen, fetch + 1);
      DeliverNoMore(docs, next, pageLen, {}, fetch + 1);
      SplitAt(docs, i, n, Deliver(docs, next, pageLen, {}, fetch + 1));
    }
  }

  lemma SplitAt(docs: seq<Doc>, i: nat, n: nat, rest: seq<Doc>)
    requires i <= n <= |docs|
    ensures docs[i..n] + rest == docs[i..] <==> rest == docs[n..]
    ensures rest <= docs[n..] ==> docs[i..n] + rest <= docs[i..]
  {
    assert docs[i..] == docs[i..n] + docs[n..];
    if docs[i..n] + rest == docs[i..] { assert rest == (docs[i..n] + rest)[n - i..]; }
  }

  /** Documents with distinct positions are all delivered, whatever the page length. */
  lemma DistinctAllDelivered(docs: seq<Doc>, pageLen: nat)
    requires Distinct(docs) && Pageable(docs, pageLen)
    ensures Deliver(docs, 0, pageLen, {}, 0) == docs
  {
    DeliversAllIff(docs, 0, pageLen, 0);
    assert docs[0..] == docs;
  }

  /** Two page lengths that split no tie deliver the same, so a paged query gives what the unpaged
      one gives. */
  lemma PagedEqualsUnpaged(docs: seq<Doc>, p: nat, q: nat)
    requires Pageable(docs, p) && Pageable(docs, q)
    requires NoTieSplit(docs, 0, p) && NoTieSplit(docs, 0, q)
    ensures Deliver(docs, 0, p, {}, 0) == Deliver(docs, 0, q, {}, 0)
  {
    DeliversAllIff(docs, 0, p, 0);
    DeliversAllIff(docs, 0, q, 0);
  }

  /** A split tie: of two documents at one position only the first comes through pages of one,
      while longer pages deliver both. */
  lemma SplitTieLosesData(d: Doc, pageLen: nat)
    requires 2 <= pageLen && d.seqId < MAX_ID
    ensures Pageable([d, d], 1) && Deliver([d, d], 0, 1, {}, 0) == [d]
    ensures Pageable([d, d], pageLen) && Deliver([d, d], 0, pageLen, {}, 0) == [d, d]
  {
    var docs := [d, d];
    ScanPassesEqual(docs, 0);
    ScanPassesEqual(docs, 1);
    SmallIdsReadable(docs, 0, 1);
    SmallIdsReadable(docs, 0, pageLen);
    SmallIdsReadable(docs, 2, pageLen);
    assert Deliver(docs, 0, 1, {}, 0) == [d] + Deliver(docs, 2, 1, {}, 1);
    if pageLen == 2 {
      DeliverOpens(docs, 0, 2, {}, 0);
      assert docs[0..2] == docs;
    }
  }

  /** A page that ends with the largest id sends the cursor back to the first document of that
      run, so it reads the run again; a page with any other end does not go back. */
  lemma LargestIdRestarts(docs: seq<Doc>, i: nat)
    requires Ordered(docs) && i < |docs|
    ensures var r := Scan(docs, After(docs[i]), 0);
            && (r <= i <==> docs[i].seqId == MAX_ID)
            && (docs[i].seqId == MAX_ID ==>
                  docs[r].run == docs[i].run && forall j :: 0 <= j < r ==> docs[j].run < docs[i].run)
  {
    ScanPassesEqual(docs, i);
    ScanFinds(docs, After(docs[i]), 0);
    var r := Scan(docs, After(docs[i]), 0);
    if r < i { assert !Below(docs[i], docs[r]); }
  }

  // ---------------------------------------------------------------- failing fetches

  /** A failing fetch cuts the delivery short: what came before it is delivered unchanged. */
  lemma {:induction false} FaultsGivePrefix(
    docs: seq<Doc>, i: nat, pageLen: nat, faults: set<nat>, fetch: nat)
    requires 0 < pageLen && Ordered(docs) && i <= |docs| && Readable(docs, i, pageLen)
    ensures Deliver(docs, i, pageLen, faults, fetch) <= Deliver(docs, i, pageLen, {}, fetch)
    decreases |docs| - i
  {
    if fetch !in faults && |docs| - i >= pageLen {
      ScanPassesEqual(docs, i + pageLen - 1);
      FaultsGivePrefix(docs, Scan(docs, After(docs[i + pageLen - 1]), 0), pageLen, faults, fetch + 1);
    }
  }

  /** How many pages n documents fill. */
  function Pages(n: nat, pageLen: nat): (k: nat)
    requires 0 < pageLen
    ensures n == 0 <==> k == 0
    decreases n
  {
    if n == 0 then 0 else 1 + Pages(if n < pageLen then 0 else n - pageLen, pageLen)
  }

  lemma {:induction false} PagesRoundUp(n: nat, pageLen: nat)
    requires 0 < pageLen
    ensures Pages(n, pageLen) == (n + pageLen - 1) / pageLen
    decreases n
  {
    if n == 0 {
      RR.DivModOf(0, pageLen, pageLen - 1);
    } else if n < pageLen {
      RR.DivModOf(1, pageLen, n - 1);
    } else {
      PagesRoundUp(n - pageLen, pageLen);
      var q, r := (n - 1) / pageLen, (n - 1) % pageLen;
      assert n - 1 == q * pageLen + r;
      RR.DivModOf(q, pageLen, r);
      assert (q + 1) * pageLen == q * pageLen + pageLen;
      RR.DivModOf(q + 1, pageLen, r);
    }
  }

  /** None of k fetches fails. */
  ghost predicate Clean(faults: set<nat>, fetch: nat, k: nat) {
    forall f: nat :: fetch <= f < fetch + k ==> f !in faults
  }

  lemma CleanNext(faults: set<nat>, fetch: nat, k: nat)
    requires 0 < k
    ensures Clean(faults, fetch, k) <==> fetch !in faults && Clean(faults, fetch + 1, k - 1)
  {
    if fetch !in faults && Clean(faults, fetch + 1, k - 1) {
      forall f: nat | fetch <= f < fetch + k ensures f !in faults {}
    }
  }

  ghost predicate Distinct(docs: seq<Doc>) {
    forall i, j :: 0 <= i < j < |docs| ==> Below(docs[i], docs[j])
  }

  /** Documents of distinct positions are all delivered iff none of the fetches that bring a
      non-empty page fails; what is delivered otherwise is a shorter prefix of them. */
  lemma {:induction false} FaultsCutShort(
    docs: seq<Doc>, i: nat, pageLen: nat, faults: set<nat>, fetch: nat)
    requires 0 < pageLen && Ordered(docs) && Distinct(docs) && i <= |docs| && Readable(docs, i, pageLen)
    ensures var got := Deliver(docs, i, pageLen, faults, fetch);
            && got <= docs[i..]
            && (got == docs[i..] <==> Clean(faults, fetch, Pages(|docs| - i, pageLen)))
    decreases |docs| - i
  {
    hide Clean, Scan, Deliver, Ordered, Readable, Distinct;
    var n := |docs| - i;
    DeliverOpens(docs, i, pageLen, faults, fetch);
    if n == 0 { CleanNone(faults, fetch); } else { CleanNext(faults, fetch, Pages(n, pageLen)); }
    if n < pageLen {
      CleanNone(faults, fetch + 1);
    } else {
      var next := i + pageLen;
      DistinctNext(docs, i, pageLen);
      assert docs[i..next][pageLen - 1] == docs[next - 1];
      if fetch !in faults {
        FaultsCutShort(docs, next, pageLen, faults, fetch + 1);
        SplitAt(docs, i, next, Deliver(docs, next, pageLen, faults, fetch + 1));
      }
    }
  }

  lemma DistinctNext(docs: seq<Doc>, i: nat, pageLen: nat)
    requires 0 < pageLen && Ordered(docs) && Distinct(docs) && i + pageLen <= |docs|
    requires Readable(docs, i, pageLen)
    ensures Scan(docs, After(docs[i + pageLen - 1]), 0) == i + pageLen
  {
    var next := i + pageLen;
    ScanPassesEqual(docs, next - 1);
    assert next < |docs| ==> Below(docs[next - 1], docs[next]);
  }

  lemma CleanNone(faults: set<nat>, fetch: nat)
    ensures Clean(faults, fetch, 0)
  {}
}
