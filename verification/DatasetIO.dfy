/** The client that pushes datasets and queries them back.

It numbers what it pushes, keeps a table of open query cursors, serves pages from them and releases
each when it is used up or when the client is deinitialised. */
module DatasetIO {
  import opened Basics
  import opened QueryCursor
  import opened SequenceCheck

  const DATASET_TYPES: nat := 16
  const DEFAULT_PAGE: nat := 30

  datatype Entry = Entry(pageLen: nat, cursor: Cursor)

  ghost predicate NoRepeats(s: seq<Cursor>) {
    forall i, j :: 0 <= i < j < |s| ==> s[i] != s[j]
  }

  /** Every cursor opened is either in the table, under one id, or was released once. */
  ghost predicate Tracked(cursors: map<nat, Entry>, created: set<Cursor>, released: seq<Cursor>) {
    && (forall id :: id in cursors ==>
          cursors[id].cursor in created && cursors[id].cursor !in released)
    && (forall id, id' :: id in cursors && id' in cursors && id != id' ==>
          cursors[id].cursor != cursors[id'].cursor)
    && (forall c :: c in released ==> c in created)
    && (forall c :: c in created && c !in released ==>
          exists id :: id in cursors && cursors[id].cursor == c)
    && NoRepeats(released)
  }

  lemma TrackedOpen(
    cursors: map<nat, Entry>, created: set<Cursor>, released: seq<Cursor>, id: nat, e: Entry)
    requires Tracked(cursors, created, released) && id !in cursors && e.cursor !in created
    ensures Tracked(cursors[id := e], created + {e.cursor}, released)
  {
    var after := cursors[id := e];
    forall c | c in created + {e.cursor} && c !in released
      ensures exists id' :: id' in after && after[id'].cursor == c
    {
      if c in created {
        var id' :| id' in cursors && cursors[id'].cursor == c;
        assert after[id'].cursor == c;
      } else {
        assert after[id].cursor == c;
      }
    }
  }

  lemma TrackedRelease(
    cursors: map<nat, Entry>, created: set<Cursor>, released: seq<Cursor>, id: nat)
    requires Tracked(cursors, created, released) && id in cursors
    ensures Tracked(cursors - {id}, created, released + [cursors[id].cursor])
  {
    var after := cursors - {id};
    forall c | c in created && c !in released + [cursors[id].cursor]
      ensures exists id' :: id' in after && after[id'].cursor == c
    {
      var id' :| id' in cursors && cursors[id'].cursor == c;
      assert after[id'].cursor == c;
    }
  }

  lemma TrackedTransient(
    cursors: map<nat, Entry>, created: set<Cursor>, released: seq<Cursor>, c: Cursor)
    requires Tracked(cursors, created, released) && c !in created
    ensures Tracked(cursors, created + {c}, released + [c])
  {}

  lemma AllReleasedIff(cursors: map<nat, Entry>, created: set<Cursor>, released: seq<Cursor>)
    requires Tracked(cursors, created, released)
    ensures (forall c :: c in created ==> c in released) <==> cursors == map[]
  {
    if cursors != map[] { var id :| id in cursors; }
  }

  function Take<T>(s: seq<T>, n: nat): seq<T> {
    if |s| <= n then s else s[..n]
  }

  class DatasetIO {
    const runId: Word
    const pkids: array<Word>
    var datasets: map<nat, Item>
    var cursors: map<nat, Entry>
    var queryIndex: nat
    var deinitialized: bool
    ghost var issued: set<nat>          // query ids handed out so far
    ghost var created: set<Cursor>       // cursors opened so far
    ghost var released: seq<Cursor>     // calls of releaseQuery so far

    ghost predicate Valid()
      reads this, created
    {
      && pkids.Length == DATASET_TYPES
      && (forall id :: id in issued ==> 1 <= id <= queryIndex)
      && Tracked(cursors, created, released)
      && (forall id :: id in cursors ==>
            && id in issued && 0 < cursors[id].pageLen
            && cursors[id].cursor in created && cursors[id].cursor.Valid())
    }

    /** What a query still has to deliver. */
    ghost function Left(id: nat): seq<Doc>
      requires Valid()
      reads this, created
    {
      if id in cursors then cursors[id].cursor.Rest() else []
    }

    constructor (runId: Word)
      ensures Valid() && fresh(pkids) && this.runId == runId
      ensures forall t :: 0 <= t < DATASET_TYPES ==> pkids[t] == 0
      ensures datasets == map[] && cursors == map[] && !deinitialized
      ensures created == {} && released == [] && issued == {}
    {
      this.runId := runId;
      pkids := new Word[DATASET_TYPES](_ => 0);
      datasets, cursors, queryIndex, deinitialized := map[], map[], 0, false;
      issued, created, released := {}, {}, [];
    }

    // -------------------------------------------------------------- pushing

    /** Numbers the dataset, overwriting its sequence id; a run id it already has is kept. */
    method PushDataset(t: nat) returns (stored: Item)
      requires Valid() && t in datasets && t < DATASET_TYPES
      modifies this`datasets, pkids
      ensures Valid()
      ensures stored == Stamped(old(datasets[t]), runId, old(pkids[t]))
      ensures datasets == old(datasets)[t := stored]
      ensures pkids[..] == old(pkids[..])[t := (old(pkids[t]) + 1) % U64]
    {
      var item := datasets[t];
      item := item.(seqId := Some(pkids[t]));
      pkids[t] := (pkids[t] + 1) % U64;
      if item.run.None? {
        item := item.(run := Some(runId));
      }
      datasets := datasets[t := item];
      stored := item;
    }

    // -------------------------------------------------------------- querying

    /** docs and faults are what the archive holds for the query and which fetches will fail;
        connected tells whether the driver gives a cursor. Answers 0 without one. */
    method OpenQuery(docs: seq<Doc>, faults: set<nat>, page: nat, connected: bool) returns (id: nat)
      requires Valid() && Pageable(docs, page)
      modifies this`cursors, this`queryIndex, this`issued, this`created
      ensures Valid()
      ensures !connected ==> id == 0 && cursors == old(cursors) && issued == old(issued)
      ensures connected ==> id !in old(issued) && issued == old(issued) + {id}
      ensures connected ==>
                && id in cursors && cursors == old(cursors)[id := cursors[id]]
                && cursors[id].pageLen == page && fresh(cursors[id].cursor)
                && Left(id) == Deliver(docs, 0, page, faults, 0)
    {
      hide Cursor.Rest, Cursor.Valid, Deliver, Ordered, Readable, Tracked;
      if !connected { return 0; }
      var cursor := new Cursor(docs, faults, page);
      queryIndex := queryIndex + 1;
      id := queryIndex;
      TrackedOpen(cursors, created, released, id, Entry(page, cursor));
      cursors := cursors[id := Entry(page, cursor)];
      issued, created := issued + {id}, created + {cursor};
    }

    method QueryHasNext(id: nat) returns (more: bool)
      requires Valid()
      modifies if id in cursors then {cursors[id].cursor} else {}
      ensures Valid()
      ensures Left(id) == old(Left(id)) && (more <==> Left(id) != [])
    {
      if id !in cursors { return false; }
      more := cursors[id].cursor.HasNext();
    }

    /** Releases a cursor and forgets its id. */
    method Release(id: nat)
      requires Valid() && id in cursors
      modifies this`cursors, this`released
      ensures Valid()
      ensures cursors == old(cursors) - {id}
      ensures released == old(released) + [old(cursors[id].cursor)]
    {
      TrackedRelease(cursors, created, released, id);
      released := released + [cursors[id].cursor];
      cursors := cursors - {id};
    }

    /** A page takes the next pageLen documents, and the last page releases the cursor. */
    method GetNextPage(id: nat) returns (page: seq<Doc>)
      requires Valid()
      modifies this`cursors, this`released, if id in cursors then {cursors[id].cursor} else {}
      ensures Valid()
      ensures id !in old(cursors) ==> page == [] && cursors == old(cursors) && released == old(released)
      ensures id in old(cursors) ==> page == Take(old(Left(id)), old(cursors[id].pageLen))
      ensures Left(id) == old(Left(id))[|page|..]
      ensures id in old(cursors) && Left(id) != [] ==>
                cursors == old(cursors) && released == old(released)
      ensures id in old(cursors) && Left(id) == [] ==>
                cursors == old(cursors) - {id} && released == old(released) + [old(cursors[id].cursor)]
    {
      hide Cursor.Rest, Cursor.Valid, Tracked;
      if id !in cursors { return []; }
      var cursor, len := cursors[id].cursor, cursors[id].pageLen;
      page := TakePage(cursor, len);
      var more := cursor.HasNext();
      if !more {
        Release(id);
      }
    }

    /** The unpaged query reads everything through a cursor of its own. */
    method QueryAll(docs: seq<Doc>, faults: set<nat>, connected: bool) returns (items: seq<Doc>)
      requires Valid() && Pageable(docs, DEFAULT_PAGE)
      modifies this`created, this`released
      ensures Valid() && cursors == old(cursors)
      ensures items == if connected then Deliver(docs, 0, DEFAULT_PAGE, faults, 0) else []
    {
      hide Cursor.Rest, Cursor.Valid, Deliver, Ordered, Readable, Tracked;
      items := [];
      if !connected { return; }
      var cursor := new Cursor(docs, faults, DEFAULT_PAGE);
      created := created + {cursor};
      ghost var all := cursor.Rest();
      var more := cursor.HasNext();
      while more
        invariant cursor.Valid() && all == items + cursor.Rest()
        invariant more <==> cursor.Rest() != []
        invariant more ==> cursor.fetched < |cursor.page|
        decreases |cursor.Rest()|
        modifies cursor
      {
        var d := cursor.Next();
        items := items + [d.value];
        more := cursor.HasNext();
      }
      TrackedTransient(cursors, old(created), released, cursor);
      released := released + [cursor];
    }

    /** Releases what is still open, in any order. Only the first call does anything. */
    method Deinit()
      requires Valid()
      modifies this`cursors, this`released, this`deinitialized
      ensures Valid() && deinitialized
      ensures old(deinitialized) ==> cursors == old(cursors) && released == old(released)
      ensures (forall c :: c in created ==> c in released)
              <==> !old(deinitialized) || old(cursors) == map[]
    {
      hide Cursor.Valid, Tracked;
      AllReleasedIff(cursors, created, released);
      if deinitialized { return; }
      while cursors != map[]
        invariant Valid()
        decreases cursors.Keys
      {
        var id :| id in cursors;
        Release(id);
      }
      AllReleasedIff(cursors, created, released);
      deinitialized := true;
    }
  }

  function Stamped(item: Item, run: Word, seqId: Word): Item {
    Item(if item.run.None? then Some(run) else item.run, Some(seqId))
  }

  /** The loop of getNextPage. */
  method TakePage(cursor: Cursor, len: nat) returns (page: seq<Doc>)
    requires cursor.Valid()
    modifies cursor
    ensures cursor.Valid()
    ensures page == Take(old(cursor.Rest()), len)
    ensures old(cursor.Rest()) == page + cursor.Rest()
  {
    hide Cursor.Rest;
    page := [];
    var more := cursor.HasNext();
    while more && |page| < len
      invariant cursor.Valid() && |page| <= len
      invariant old(cursor.Rest()) == page + cursor.Rest()
      invariant more <==> cursor.Rest() != []
      invariant more ==> cursor.fetched < |cursor.page|
      decreases |cursor.Rest()|
    {
      var d := cursor.Next();
      page := page + [d.value];
      more := cursor.HasNext();
    }
  }
}
