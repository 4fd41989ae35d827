/** The dataset a control unit is initialised with: the published attributes, merged with their
static setup, whose default values may be restored from the last valid input dataset. */
module InitDataset {
  import opened Basics

  datatype Value = Text(s: string) | Number(n: Int32) | Flag(b: bool) | Other(id: nat)

  /** The keys of an attribute that the merge knows, and any others. */
  datatype Key =
    | Name | Description
    | Type | Direction | MaxSize
    | Default | MaxRange | MinRange
    | Extra(spelling: string)

  type Attribute = map<Key, Value>
  type Dataset = map<string, Value>

  type Int32 = x: int | -0x8000_0000 <= x < 0x8000_0000

  /** How the wrappers turn values into text and into numbers. What is already text or a number
      stays as it is. */
  datatype Conversions = Conversions(asString: Value -> string, asInt32: Value -> Int32) {
    ghost predicate Valid() {
      && (forall s :: asString(Text(s)) == s)
      && (forall n :: asInt32(Number(n)) == n)
      && (forall b :: asInt32(Flag(b)) == if b then 1 else 0)
    }
  }

  const INPUT: Int32 := 0
  const BIDIRECTIONAL: Int32 := 2

  // ---------------------------------------------------------------- the merge

  function MoveString(cv: Conversions, k: Key, src: Attribute, dst: Attribute): Attribute {
    if k in src then dst[k := Text(cv.asString(src[k]))] else dst
  }

  function MoveInt32(cv: Conversions, k: Key, src: Attribute, dst: Attribute): Attribute {
    if k in src then dst[k := Number(cv.asInt32(src[k]))] else dst
  }

  function MergeString(
    cv: Conversions, k: Key, src: Attribute, over: Attribute, dst: Attribute): Attribute
  {
    if k in over then dst[k := Text(cv.asString(over[k]))] else MoveString(cv, k, src, dst)
  }

  /** mergeDatasetAttributeWithSetup: builds a fresh attribute. */
  function Merge(cv: Conversions, element: Attribute, setup: Attribute): Attribute {
    var r := MoveString(cv, Name, element, map[]);
    var r := MoveString(cv, Description, element, r);
    var r := MoveInt32(cv, Type, element, r);
    var r := MoveInt32(cv, Direction, element, r);
    var r := MoveInt32(cv, MaxSize, element, r);
    var r := MergeString(cv, Default, element, setup, r);
    var r := MergeString(cv, MaxRange, element, setup, r);
    MergeString(cv, MinRange, element, setup, r)
  }

  function Lookup<K, V>(w: map<K, V>, k: K): Option<V> {
    if k in w then Some(w[k]) else None
  }

  function AsText(cv: Conversions, v: Option<Value>): Option<Value> {
    if v.None? then None else Some(Text(cv.asString(v.value)))
  }

  function AsNumber(cv: Conversions, v: Option<Value>): Option<Value> {
    if v.None? then None else Some(Number(cv.asInt32(v.value)))
  }

  predicate Tunable(k: Key) {
    k.Default? || k.MaxRange? || k.MinRange?
  }

  /** What the merge holds for a key: the setup overrides the default value and the range, the rest
      is the element's, and keys it does not know are dropped. */
  function Merged(cv: Conversions, element: Attribute, setup: Attribute, k: Key): Option<Value> {
    if k.Extra? then None
    else if k.Type? || k.Direction? || k.MaxSize? then AsNumber(cv, Lookup(element, k))
    else if Tunable(k) && k in setup then AsText(cv, Lookup(setup, k))
    else AsText(cv, Lookup(element, k))
  }

  lemma MergeAt(cv: Conversions, element: Attribute, setup: Attribute, k: Key)
    ensures Lookup(Merge(cv, element, setup), k) == Merged(cv, element, setup, k)
  {
    hide MoveString, MoveInt32, MergeString;
    var r1 := MoveString(cv, Name, element, map[]);
    MovesAt(cv, Name, element, setup, map[], k);
    var r2 := MoveString(cv, Description, element, r1);
    MovesAt(cv, Description, element, setup, r1, k);
    var r3 := MoveInt32(cv, Type, element, r2);
    MovesAt(cv, Type, element, setup, r2, k);
    var r4 := MoveInt32(cv, Direction, element, r3);
    MovesAt(cv, Direction, element, setup, r3, k);
    var r5 := MoveInt32(cv, MaxSize, element, r4);
    MovesAt(cv, MaxSize, element, setup, r4, k);
    var r6 := MergeString(cv, Default, element, setup, r5);
    MovesAt(cv, Default, element, setup, r5, k);
    MovesAt(cv, MaxRange, element, setup, r6, k);
    MovesAt(cv, MinRange, element, setup, MergeString(cv, MaxRange, element, setup, r6), k);
  }

  lemma MovesAt(
    cv: Conversions, key: Key, src: Attribute, over: Attribute, dst: Attribute, k: Key)
    ensures Lookup(MoveString(cv, key, src, dst), k)
            == if k == key && k in src then AsText(cv, Lookup(src, k)) else Lookup(dst, k)
    ensures Lookup(MoveInt32(cv, key, src, dst), k)
            == if k == key && k in src then AsNumber(cv, Lookup(src, k)) else Lookup(dst, k)
    ensures Lookup(MergeString(cv, key, src, over, dst), k)
            == if k != key then Lookup(dst, k)
               else if k in over then AsText(cv, Lookup(over, k))
               else if k in src then AsText(cv, Lookup(src, k)) else Lookup(dst, k)
  {}

  lemma SameLookups(a: Attribute, b: Attribute)
    requires forall k :: Lookup(a, k) == Lookup(b, k)
    ensures a == b
  {
    assert forall k :: k in a <==> Lookup(a, k).Some?;
    assert forall k :: k in b <==> Lookup(b, k).Some?;
    forall k | k in a && k in b ensures a[k] == b[k] {
      assert Lookup(a, k) == Lookup(b, k);
    }
  }

  /** Merging what was merged changes nothing. */
  lemma MergeIdempotent(cv: Conversions, element: Attribute, setup: Attribute)
    requires cv.Valid()
    ensures Merge(cv, Merge(cv, element, setup), setup) == Merge(cv, element, setup)
  {
    hide Merge;
    var once := Merge(cv, element, setup);
    var twice := Merge(cv, once, setup);
    forall k ensures Lookup(twice, k) == Lookup(once, k) {
      MergeAt(cv, element, setup, k);
      MergeAt(cv, once, setup, k);
    }
    SameLookups(once, twice);
  }

  // ---------------------------------------------------------------- the configuration

  /** An answer of the data access layer: an error code, nothing, or something. */
  datatype Fetched<T> = Failed(err: int) | Nothing | Found(value: T)

  datatype Result<T> = Ok(value: T) | Err(err: int)

  /** The setup with its default value, if it has one, replaced by the last dataset's; without
      one there, the default value is gone. */
  function Restored(setup: Attribute, last: Dataset, name: string): Attribute {
    map k | k in setup && (k.Default? ==> name in last) ::
      if k.Default? then last[name] else setup[k]
  }

  /** The loop that copies the setup key by key, in any order. */
  method Restore(setup: Attribute, last: Dataset, name: string) returns (after: Attribute)
    ensures after == Restored(setup, last, name)
  {
    after := map[];
    var keys := setup.Keys;
    while keys != {}
      invariant keys <= setup.Keys
      invariant after == Restored(setup, last, name) - keys
      decreases keys
    {
      var k :| k in keys;
      if k.Default? {
        if name in last {
          after := after[Default := last[name]];
        }
      } else {
        after := after[k := setup[k]];
      }
      keys := keys - {k};
    }
  }

  function Configuration(
    setup: Fetched<Attribute>, restore: bool, last: Fetched<Dataset>, name: string)
    : Result<Option<Attribute>>
  {
    if setup.Failed? then Err(setup.err)
    else
      var s := if setup.Found? then Some(setup.value) else None;
      if !restore || last.Failed? then Ok(s)
      else if last.Nothing? then Err(-1)
      else Ok(Some(Restored(if s.Some? then s.value else map[], last.value, name)))
  }

  /** getConfigurationToUse. restore says that the unit's properties ask for the last valid
      dataset; an error in fetching that leaves the setup as it is. */
  method GetConfigurationToUse(
    setup: Fetched<Attribute>, restore: bool, last: Fetched<Dataset>, name: string)
    returns (r: Result<Option<Attribute>>)
    ensures r == Configuration(setup, restore, last, name)
  {
    if setup.Failed? { return Err(setup.err); }
    var configuration := if setup.Found? then Some(setup.value) else None;
    if restore {
      if !last.Failed? {
        if last.Nothing? { return Err(-1); }
        if configuration.None? {
          configuration := Some(map[]);
        }
        var after := Restore(configuration.value, last.value, name);
        configuration := Some(after);
      }
    }
    return Ok(configuration);
  }

  // ---------------------------------------------------------------- the dataset

  /** What the data access layer answers for one control unit. */
  datatype Stores = Stores(setup: string -> Fetched<Attribute>, restore: bool, last: Fetched<Dataset>)

  const CAST_ERROR: int := 1

  function NameOf(e: Attribute): string {
    if Name in e && e[Name].Text? then e[Name].s else ""
  }

  /** The direction as a 32-bit number, which a boolean gives as well; None stands for the cast
      exception. */
  function DirectionOf(e: Attribute): Option<int> {
    if Direction !in e then None
    else
      match e[Direction]
      case Number(n) => Some(n)
      case Flag(b) => Some(if b then 1 else 0)
      case _ => None
  }

  predicate Settable(e: Attribute) {
    DirectionOf(e) == Some(INPUT) || DirectionOf(e) == Some(BIDIRECTIONAL)
  }

  function InitAttribute(cv: Conversions, st: Stores, e: Attribute): Result<Attribute> {
    if DirectionOf(e).None? then Err(CAST_ERROR)
    else if !Settable(e) then Ok(e)
    else
      match Configuration(st.setup(NameOf(e)), st.restore, st.last, NameOf(e))
      case Err(err) => Err(err)
      case Ok(None) => Ok(e)
      case Ok(Some(c)) => Ok(Merge(cv, e, c))
  }

  /** The dataset loop of initDataPack: the first error ends it. */
  method InitDataset(cv: Conversions, st: Stores, elements: seq<Attribute>)
    returns (r: Result<seq<Attribute>>)
    ensures r.Ok? ==>
              && |r.value| == |elements|
              && forall i :: 0 <= i < |elements| ==> Ok(r.value[i]) == InitAttribute(cv, st, elements[i])
    ensures r.Err? ==>
              exists i :: 0 <= i < |elements| && InitAttribute(cv, st, elements[i]) == Err(r.err)
                          && forall j :: 0 <= j < i ==> InitAttribute(cv, st, elements[j]).Ok?
  {
    hide Merge, Configuration;
    var dataset := [];
    for i := 0 to |elements|
      invariant |dataset| == i
      invariant forall j :: 0 <= j < i ==> Ok(dataset[j]) == InitAttribute(cv, st, elements[j])
    {
      var e := elements[i];
      var name := NameOf(e);
      var direction := DirectionOf(e);
      if direction.None? { return Err(CAST_ERROR); }
      if direction.value == INPUT || direction.value == BIDIRECTIONAL {
        var c := GetConfigurationToUse(st.setup(name), st.restore, st.last, name);
        if c.Err? { return Err(c.err); }
        if c.value.Some? {
          dataset := dataset + [Merge(cv, e, c.value.value)];
        } else {
          dataset := dataset + [e];
        }
      } else {
        dataset := dataset + [e];
      }
    }
    return Ok(dataset);
  }

  /** Initialising never renames an attribute or turns its direction, and leaves one that is not an
      input untouched. */
  lemma InitKeeps(cv: Conversions, st: Stores, e: Attribute)
    requires cv.Valid() && InitAttribute(cv, st, e).Ok?
    ensures var r := InitAttribute(cv, st, e).value;
            && DirectionOf(r) == DirectionOf(e)
            && (!Settable(e) ==> r == e)
            && (Name in e && e[Name].Text? ==> Lookup(r, Name) == Lookup(e, Name))
  {
    hide Merge;
    match Configuration(st.setup(NameOf(e)), st.restore, st.last, NameOf(e))
    case Ok(Some(c)) =>
      MergeAt(cv, e, c, Direction);
      MergeAt(cv, e, c, Name);
    case _ =>
  }

  /** Restoring changes at most the default value of an attribute with a setup; every other key is
      as without restoring. The default value is the last dataset's iff both the setup has a
      default value and the last dataset has the attribute; with only the first, the published
      one comes back. */
  lemma RestoreChangesDefaultOnly(
    cv: Conversions, e: Attribute, setup: Attribute, last: Dataset, k: Key)
    ensures var plain := Lookup(Merge(cv, e, setup), k);
            var restored := Lookup(Merge(cv, e, Restored(setup, last, NameOf(e))), k);
            if k != Default || Default !in setup then restored == plain
            else if NameOf(e) in last then restored == AsText(cv, Some(last[NameOf(e)]))
            else restored == AsText(cv, Lookup(e, Default))
  {
    hide Merge;
    MergeAt(cv, e, setup, k);
    MergeAt(cv, e, Restored(setup, last, NameOf(e)), k);
  }

  /** The attribute's name is a text, or counts as empty. */
  predicate Named(e: Attribute, name: string) {
    match Lookup<Key, Value>(e, Name)
    case Some(Text(s)) => name == s
    case _ => name == ""
  }

  /** An input or bidirectional attribute, whose direction is the number 0 or 2 or the boolean that
      counts as 0. */
  predicate TakesInput(e: Attribute) {
    Lookup(e, Direction) in {Some(Number(0)), Some(Number(2)), Some(Flag(false))}
  }

  /** With a setup, key by key: the setup decides the default value and the range where it has them,
      the published attribute decides the rest, and unknown keys are dropped. When restoring finds a
      last dataset, that decides a default value the setup has, or drops the setup's. */
  lemma InitWithSetup(
    cv: Conversions, st: Stores, e: Attribute, name: string, setup: Attribute, k: Key)
    requires Named(e, name) && TakesInput(e) && st.setup(name) == Found(setup)
    requires !(st.restore && st.last.Nothing?)
    ensures InitAttribute(cv, st, e).Ok?
    ensures Lookup(InitAttribute(cv, st, e).value, k)
            == if k.Extra? then None
               else if k.Type? || k.Direction? || k.MaxSize? then AsNumber(cv, Lookup(e, k))
               else if k.Default? && Default in setup && st.restore && st.last.Found? then
                 AsText(cv, if name in st.last.value then Some(st.last.value[name]) else Lookup(e, k))
               else if (k.Default? || k.MaxRange? || k.MinRange?) && k in setup then
                 AsText(cv, Some(setup[k]))
               else AsText(cv, Lookup(e, k))
  {
    hide Merge;
    MergeAt(cv, e, setup, k);
    if st.last.Found? { MergeAt(cv, e, Restored(setup, st.last.value, name), k); }
  }

  /** The errors and the attributes left as published: a direction that is no number, an unreadable
      setup, a restore that finds no dataset; an output, or neither a setup nor a dataset to restore
      from. */
  lemma InitOtherwise(cv: Conversions, st: Stores, e: Attribute, name: string)
    requires Named(e, name)
    ensures match Lookup<Key, Value>(e, Direction)
            case Some(Number(d)) => d != 0 && d != 2 ==> InitAttribute(cv, st, e) == Ok(e)
            case Some(Flag(b)) => b ==> InitAttribute(cv, st, e) == Ok(e)
            case _ => InitAttribute(cv, st, e) == Err(1)
    ensures TakesInput(e) ==>
              match st.setup(name)
              case Failed(err) => InitAttribute(cv, st, e) == Err(err)
              case Nothing => !st.restore || st.last.Failed? ==> InitAttribute(cv, st, e) == Ok(e)
              case Found(_) => true
    ensures TakesInput(e) && !st.setup(name).Failed? && st.restore && st.last.Nothing? ==>
              InitAttribute(cv, st, e) == Err(-1)
  {
    hide Merge;
  }

  /** Without a setup nothing is restored: the attribute is only reduced to the keys the merge
      knows. */
  lemma NoSetupNoRestore(cv: Conversions, st: Stores, e: Attribute, name: string, k: Key)
    requires Named(e, name) && TakesInput(e)
    requires st.setup(name) == Nothing && st.restore && st.last.Found?
    ensures InitAttribute(cv, st, e) == Ok(Merge(cv, e, map[]))
    ensures Lookup(InitAttribute(cv, st, e).value, k)
            == if k.Extra? then None
               else if k.Type? || k.Direction? || k.MaxSize? then AsNumber(cv, Lookup(e, k))
               else AsText(cv, Lookup(e, k))
  {
    hide Merge;
    assert Restored(map[], st.last.value, name) == map[];
    MergeAt(cv, e, map[], k);
  }
}
