/** Reading the last value of many keys at once: the request with its keys, the answer buffer that
the server builds from the live cache, and what the client makes of it.

Documents are BSON: by section "document" of the BSON specification, version 1.1, a document starts
with its own length as a little-endian 32-bit integer, so documents can follow each other without
separators. */
module MultiGet {
  type Byte = x: int | 0 <= x < 256
  type Bytes = seq<Byte>

  const NUL: Byte := 0
  const KEY_COUNT_PERIOD: nat := 0x1_0000     // number_of_key is 16 bits wide
  const EMPTY_DOCUMENT: Bytes := [5, 0, 0, 0, 0]

  function Length(b: Bytes, at: nat): nat
    requires at + 4 <= |b|
  {
    b[at] as int + 0x100 * (b[at + 1] as int) + 0x1_0000 * (b[at + 2] as int)
    + 0x100_0000 * (b[at + 3] as int)
  }

  predicate Document(b: Bytes) {
    5 <= |b| && Length(b, 0) == |b|
  }

  function Join(parts: seq<Bytes>): Bytes {
    if parts == [] then [] else parts[0] + Join(parts[1..])
  }

  lemma {:induction false} JoinPush(parts: seq<Bytes>, x: Bytes)
    ensures Join(parts + [x]) == Join(parts) + x
  {
    if parts == [] {
      assert Join([x]) == x + Join([]);
    } else {
      assert (parts + [x])[1..] == parts[1..] + [x];
      JoinPush(parts[1..], x);
    }
  }

  /** Where part i lies in the whole. */
  lemma {:induction false} JoinAt(parts: seq<Bytes>, i: nat)
    requires i < |parts|
    ensures var at := |Join(parts[..i])|;
            && at + |parts[i]| <= |Join(parts)|
            && Join(parts)[at..at + |parts[i]|] == parts[i]
            && |Join(parts[..i + 1])| == at + |parts[i]|
  {
    if i == 0 {
      assert parts[..1] == [parts[0]];
      assert Join([parts[0]]) == parts[0] + Join([]);
    } else {
      JoinAt(parts[1..], i - 1);
      assert parts[..i][1..] == parts[1..][..i - 1];
      assert parts[..i + 1][1..] == parts[1..][..i];
    }
  }

  // ---------------------------------------------------------------- the request

  function Terminated(keys: seq<Bytes>): seq<Bytes> {
    seq(|keys|, i requires 0 <= i < |keys| => keys[i] + [NUL])
  }

  /** The client writes each key and a terminator. */
  method EncodeKeys(keys: seq<Bytes>) returns (buffer: Bytes)
    ensures buffer == Join(Terminated(keys))
  {
    buffer := [];
    for i := 0 to |keys|
      invariant buffer == Join(Terminated(keys[..i]))
    {
      JoinPush(Terminated(keys[..i]), keys[i] + [NUL]);
      assert Terminated(keys[..i + 1]) == Terminated(keys[..i]) + [keys[i] + [NUL]];
      buffer := buffer + keys[i];
      buffer := buffer + [NUL];
    }
    assert keys[..|keys|] == keys;
  }

  /** Where the next terminator is. */
  function Terminator(b: Bytes, at: nat): (e: nat)
    requires at <= |b|
    ensures at <= e <= |b|
    ensures forall j :: at <= j < e ==> b[j] != NUL
    ensures e < |b| ==> b[e] == NUL
    decreases |b| - at
  {
    if at == |b| || b[at] == NUL then at else Terminator(b, at + 1)
  }

  /** The keys a server reads: each up to the next terminator. */
  function KeysFrom(b: Bytes, at: nat, count: nat): seq<Bytes>
    requires at <= |b|
    decreases count
  {
    if count == 0 then []
    else
      var e := Terminator(b, at);
      [b[at..e]] + KeysFrom(b, if e < |b| then e + 1 else e, count - 1)
  }

  method FindTerminator(b: Bytes, at: nat) returns (e: nat)
    requires at <= |b|
    ensures e == Terminator(b, at)
  {
    e := at;
    while e < |b| && b[e] != NUL
      invariant at <= e <= |b| && Terminator(b, e) == Terminator(b, at)
    {
      e := e + 1;
    }
  }

  method DecodeKeys(buffer: Bytes, count: nat) returns (keys: seq<Bytes>)
    ensures keys == KeysFrom(buffer, 0, count)
  {
    hide Terminator, KeysFrom;
    keys := [];
    var cursor := 0;
    for i := 0 to count
      invariant cursor <= |buffer|
      invariant keys + KeysFrom(buffer, cursor, count - i) == KeysFrom(buffer, 0, count)
    {
      KeysNext(buffer, cursor, count - i);
      var e := FindTerminator(buffer, cursor);
      keys := keys + [buffer[cursor..e]];
      cursor := if e < |buffer| then e + 1 else e;
    }
    NoKeys(buffer, cursor);
  }

  lemma KeysNext(b: Bytes, at: nat, count: nat)
    requires at <= |b| && 0 < count
    ensures var e := Terminator(b, at);
            KeysFrom(b, at, count)
            == [b[at..e]] + KeysFrom(b, if e < |b| then e + 1 else e, count - 1)
  {}

  /** One key read back is the key itself, up to the first terminator inside it. */
  lemma ReadKey(b: Bytes, at: nat, key: Bytes, rest: Bytes, n: nat)
    requires at <= |b| && b[at..] == key + [NUL] + rest
    ensures var next := at + |key| + 1;
            && next <= |b| && b[next..] == rest
            && (NUL !in key ==> KeysFrom(b, at, n + 1) == [key] + KeysFrom(b, next, n))
            && (NUL in key ==> KeysFrom(b, at, n + 1) != [] && |KeysFrom(b, at, n + 1)[0]| < |key|)
  {
    hide Terminator, KeysFrom;
    KeyBytes(b, at, key, rest);
    KeysNext(b, at, n + 1);
    var e := Terminator(b, at);
    assert e <= at + |key|;
    if NUL !in key { assert e == at + |key|; }
  }

  lemma KeyBytes(b: Bytes, at: nat, key: Bytes, rest: Bytes)
    requires at <= |b| && b[at..] == key + [NUL] + rest
    ensures at + |key| < |b| && b[at + |key|] == NUL
    ensures b[at..at + |key|] == key && b[at + |key| + 1..] == rest
    ensures forall j :: at <= j < at + |key| ==> b[j] == key[j - at]
  {
    assert b[at..][|key|] == NUL;
    assert b[at..at + |key|] == b[at..][..|key|] == key;
    assert b[at + |key| + 1..] == b[at..][|key| + 1..] == rest;
    forall j | at <= j < at + |key| ensures b[j] == key[j - at] { assert b[j] == b[at..][j - at]; }
  }

  predicate Plain(keys: seq<Bytes>) {
    forall i :: 0 <= i < |keys| ==> NUL !in keys[i]
  }

  lemma RequestHead(keys: seq<Bytes>)
    requires keys != []
    ensures Join(Terminated(keys)) == keys[0] + [NUL] + Join(Terminated(keys[1..]))
  {
    assert Terminated(keys)[1..] == Terminated(keys[1..]);
  }

  lemma {:induction false} KeysSurviveIff(b: Bytes, at: nat, keys: seq<Bytes>)
    requires at <= |b| && b[at..] == Join(Terminated(keys))
    ensures KeysFrom(b, at, |keys|) == keys <==> Plain(keys)
    decreases |keys|
  {
    hide KeysFrom, Join, Terminated, Plain;
    if keys == [] {
      NoKeys(b, at);
    } else {
      RequestHead(keys);
      ReadKey(b, at, keys[0], Join(Terminated(keys[1..])), |keys| - 1);
      var next := at + |keys[0]| + 1;
      SameTail(keys, KeysFrom(b, next, |keys| - 1));
      KeysSurviveIff(b, next, keys[1..]);
    }
  }

  lemma NoKeys(b: Bytes, at: nat)
    requires at <= |b|
    ensures KeysFrom(b, at, 0) == [] && Plain([])
  {}

  lemma SameTail(keys: seq<Bytes>, tail: seq<Bytes>)
    requires keys != []
    ensures [keys[0]] + tail == keys <==> tail == keys[1..]
    ensures Plain(keys) <==> NUL !in keys[0] && Plain(keys[1..])
  {
    assert keys == [keys[0]] + keys[1..];
    if [keys[0]] + tail == keys { assert tail == ([keys[0]] + tail)[1..]; }
  }

  lemma {:induction false} KeysCounted(b: Bytes, at: nat, count: nat)
    requires at <= |b|
    ensures |KeysFrom(b, at, count)| == count
    decreases count
  {
    if 0 < count {
      var e := Terminator(b, at);
      KeysCounted(b, if e < |b| then e + 1 else e, count - 1);
    }
  }

  /** What the server reads of a request. */
  function Received(keys: seq<Bytes>): seq<Bytes> {
    KeysFrom(Join(Terminated(keys)), 0, |keys| % KEY_COUNT_PERIOD)
  }

  /** The server reads the requested keys iff none holds a terminator and their number fits into
      its 16-bit field. */
  lemma RequestRoundTripIff(keys: seq<Bytes>)
    ensures |Received(keys)| == |keys| % KEY_COUNT_PERIOD
    ensures Received(keys) == keys <==> Plain(keys) && |keys| < KEY_COUNT_PERIOD
  {
    hide KeysFrom, Plain, Terminated, Join;
    var b := Join(Terminated(keys));
    KeysCounted(b, 0, |keys| % KEY_COUNT_PERIOD);
    assert b[0..] == b;
    KeysSurviveIff(b, 0, keys);
  }

  // ---------------------------------------------------------------- the answer

  type Cache = map<Bytes, Bytes>

  /** The document for a key: the empty one when the cache has nothing for it. */
  function DocumentFor(cache: Cache, key: Bytes): Bytes {
    if key in cache && cache[key] != [] then cache[key] else EMPTY_DOCUMENT
  }

  function DocumentsFor(cache: Cache, keys: seq<Bytes>): (docs: seq<Bytes>)
    ensures |docs| == |keys|
  {
    seq(|keys|, i requires 0 <= i < |keys| => DocumentFor(cache, keys[i]))
  }

  function KeySet(keys: seq<Bytes>): set<Bytes> {
    set k | k in keys
  }

  /** The driver's callbacks insert each key once; a missing value is the empty buffer. */
  method GetData(cache: Cache, keys: seq<Bytes>, connected: bool) returns (err: int, found: Cache)
    ensures err == if connected then 0 else -1
    ensures connected ==> found.Keys == KeySet(keys)
    ensures connected ==> forall k :: k in found ==> found[k] == if k in cache then cache[k] else []
    ensures !connected ==> found == map[]
  {
    found := map[];
    if !connected { return -1, found; }
    err := 0;
    for i := 0 to |keys|
      invariant found.Keys == KeySet(keys[..i])
      invariant forall k :: k in found ==> found[k] == if k in cache then cache[k] else []
    {
      var k := keys[i];
      if k !in found {
        found := found[k := if k in cache then cache[k] else []];
      }
      assert keys[..i + 1] == keys[..i] + [k];
    }
    assert keys[..|keys|] == keys;
  }

  lemma JoinDocuments(cache: Cache, keys: seq<Bytes>, i: nat)
    requires i < |keys|
    ensures Join(DocumentsFor(cache, keys[..i + 1]))
            == Join(DocumentsFor(cache, keys[..i])) + DocumentFor(cache, keys[i])
  {
    JoinPush(DocumentsFor(cache, keys[..i]), DocumentFor(cache, keys[i]));
    assert DocumentsFor(cache, keys[..i + 1])
        == DocumentsFor(cache, keys[..i]) + [DocumentFor(cache, keys[i])];
  }

  lemma JoinNone()
    ensures Join([]) == []
  {}

  /** The server's answer: one document per key in request order, and the number of distinct
      keys. */
  method Answer(cache: Cache, keys: seq<Bytes>, connected: bool)
    returns (err: int, count: nat, buffer: Bytes)
    ensures err == if connected then 0 else -1
    ensures count == |KeySet(keys)|
    ensures buffer == Join(DocumentsFor(if connected then cache else map[], keys))
  {
    hide Join, DocumentsFor;
    var found;
    err, found := GetData(cache, keys, connected);
    buffer := [];
    JoinNone();
    ghost var c: Cache := if connected then cache else map[];
    for i := 0 to |keys|
      invariant found.Keys == (if connected then KeySet(keys) else KeySet(keys[..i]))
      invariant forall k :: k in found ==> found[k] == if k in c then c[k] else []
      invariant buffer == Join(DocumentsFor(c, keys[..i]))
    {
      var k := keys[i];
      if k !in found {
        found := found[k := []];
      }
      assert keys[..i + 1] == keys[..i] + [k];
      JoinDocuments(c, keys, i);
      if |found[k]| == 0 {
        buffer := buffer + EMPTY_DOCUMENT;
      } else {
        buffer := buffer + found[k];
      }
    }
    assert keys[..|keys|] == keys;
    count := |found|;
  }

  /** The client cuts the buffer by the length prefixes. */
  method ReadDocuments(buffer: Bytes, count: nat, ghost docs: seq<Bytes>) returns (read: seq<Bytes>)
    requires buffer == Join(docs) && count <= |docs|
    requires forall i :: 0 <= i < |docs| ==> Document(docs[i])
    ensures read == docs[..count]
  {
    read := [];
    var cursor := 0;
    for i := 0 to count
      invariant cursor == |Join(docs[..i])| && read == docs[..i]
    {
      JoinAt(docs, i);
      assert forall j :: 0 <= j < 4 ==> buffer[cursor..cursor + |docs[i]|][j] == docs[i][j];
      var size := Length(buffer, cursor);
      read := read + [buffer[cursor..cursor + size]];
      cursor := cursor + size;
    }
  }

  // ---------------------------------------------------------------- both ends

  predicate NoRepeats(keys: seq<Bytes>) {
    forall i, j :: 0 <= i < j < |keys| ==> keys[i] != keys[j]
  }

  lemma {:induction false} DistinctIff(keys: seq<Bytes>)
    ensures |KeySet(keys)| <= |keys|
    ensures |KeySet(keys)| == |keys| <==> NoRepeats(keys)
  {
    if keys == [] {
      assert KeySet(keys) == {};
    } else {
      var init, last := keys[..|keys| - 1], keys[|keys| - 1];
      DistinctIff(init);
      assert KeySet(keys) == KeySet(init) + {last};
      assert keys == init + [last];
      if last in init {
        assert KeySet(keys) == KeySet(init);
      } else if NoRepeats(init) {
        assert NoRepeats(keys);
      } else {
        var i, j :| 0 <= i < j < |init| && init[i] == init[j];
        assert keys[i] == keys[j];
      }
    }
  }

  ghost predicate Documents(cache: Cache) {
    forall k :: k in cache ==> cache[k] == [] || Document(cache[k])
  }

  /** The whole exchange. When a multiple of 65536 keys is asked for, the server sees none. */
  method RequestLastOutputData(cache: Cache, keys: seq<Bytes>, connected: bool)
    returns (err: int, results: seq<Bytes>)
    requires Documents(cache)
    ensures err == if keys == [] || !connected then -1 else 0
    ensures err != 0 ==> results == []
    ensures err == 0 ==> results == Results(cache, Received(keys))
    ensures err == 0 && Plain(keys) && |keys| < 65536 ==>
              && |results| == |set k | k in keys| <= |keys|
              && (NoRepeats(keys) ==> |results| == |keys|)
              && forall i :: 0 <= i < |results| ==>
                   results[i] == if keys[i] in cache && cache[keys[i]] != [] then cache[keys[i]]
                                 else [5, 0, 0, 0, 0]
  {
    hide Terminated, Join, KeysFrom, Document, DocumentsFor, Plain;
    results := [];
    if |keys| == 0 { return -1, results; }
    var request := EncodeKeys(keys);
    var asked := DecodeKeys(request, |keys| % KEY_COUNT_PERIOD);
    var count, buffer;
    err, count, buffer := Answer(cache, asked, connected);
    if err != 0 { return; }
    DistinctIff(asked);
    AllDocuments(cache, asked);
    results := ReadDocuments(buffer, count, DocumentsFor(cache, asked));
    if Plain(keys) && |keys| < KEY_COUNT_PERIOD {
      RequestRoundTripIff(keys);
      DocumentsAre(cache, keys);
    }
  }

  /** The documents, in terms of the cache alone. */
  lemma DocumentsAre(cache: Cache, keys: seq<Bytes>)
    ensures forall i :: 0 <= i < |keys| ==>
              DocumentsFor(cache, keys)[i]
              == if keys[i] in cache && cache[keys[i]] != [] then cache[keys[i]] else [5, 0, 0, 0, 0]
  {}

  lemma AllDocuments(cache: Cache, keys: seq<Bytes>)
    requires Documents(cache)
    ensures forall i :: 0 <= i < |keys| ==> Document(DocumentsFor(cache, keys)[i])
  {}

  /** What the client reads: as many documents as there are distinct keys. */
  function Results(cache: Cache, keys: seq<Bytes>): seq<Bytes> {
    DistinctIff(keys);
    DocumentsFor(cache, keys)[..|KeySet(keys)|]
  }

  /** For keys that survive the way to the server the client gets one document per key, in request
      order, iff no key is asked for twice; otherwise the last documents are left unread. */
  lemma ExchangeExactIff(cache: Cache, keys: seq<Bytes>)
    requires Plain(keys) && |keys| < KEY_COUNT_PERIOD
    ensures Results(cache, Received(keys)) <= DocumentsFor(cache, keys)
    ensures Results(cache, Received(keys)) == DocumentsFor(cache, keys) <==> NoRepeats(keys)
  {
    hide Received, Plain;
    RequestRoundTripIff(keys);
    DistinctIff(keys);
  }

  /** For distinct keys the client gets, for the i-th key asked for, what the cache holds under it, or
      the empty document. */
  lemma ExchangeReadsCache(cache: Cache, keys: seq<Bytes>, i: nat)
    requires Plain(keys) && |keys| < KEY_COUNT_PERIOD && NoRepeats(keys) && i < |keys|
    ensures |Results(cache, Received(keys))| == |keys|
    ensures Results(cache, Received(keys))[i]
            == if keys[i] in cache && cache[keys[i]] != [] then cache[keys[i]] else [5, 0, 0, 0, 0]
  {
    hide Received, Plain;
    RequestRoundTripIff(keys);
    DistinctIff(keys);
    DocumentsAre(cache, keys);
  }
}
