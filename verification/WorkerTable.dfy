/** The agent's table of workers: a map from names to workers, walked in the order of the names.

Looking a name up inserts it, with a null worker, when it is missing; the loops that initialise and
deinitialise the workers stop at the first one that is null or in the wrong state. */
module WorkerTable {
  import opened Names

  datatype Worker = Null | Service(initialised: bool)

  datatype Row = Row(name: string, worker: Worker)

  type Table = seq<Row>

  const PROCESS_WORKER := "ProcessWorker"
  const LOG_WORKER := "LogWorker"

  predicate Ordered(t: Table) {
    forall i, j :: 0 <= i < j < |t| ==> Less(t[i].name, t[j].name)
  }

  /** Where a name is, or belongs. */
  function Position(t: Table, name: string, i: nat): (p: nat)
    requires i <= |t|
    ensures i <= p <= |t|
    ensures forall j :: i <= j < p ==> Less(t[j].name, name)
    ensures p < |t| ==> !Less(t[p].name, name)
    decreases |t| - i
  {
    if i == |t| || !Less(t[i].name, name) then i else Position(t, name, i + 1)
  }

  predicate Has(t: Table, name: string) {
    exists i :: 0 <= i < |t| && t[i].name == name
  }

  function Inserted(t: Table, row: Row): Table {
    var p := Position(t, row.name, 0);
    t[..p] + [row] + t[p..]
  }

  /** addWorker: a worker is added once, not initialised. */
  function Add(t: Table, name: string): Table {
    if Has(t, name) then t else Inserted(t, Row(name, Service(false)))
  }

  /** The map's subscript operator. */
  function Touch(t: Table, name: string): Table {
    if Has(t, name) then t else Inserted(t, Row(name, Null))
  }

  // ---------------------------------------------------------------- order

  /** A lookup keeps the order, changes no worker that was there and makes the name present. */
  lemma TouchKeepsOrder(t: Table, name: string)
    requires Ordered(t)
    ensures Ordered(Touch(t, name)) && Has(Touch(t, name), name)
    ensures forall row :: row in t ==> row in Touch(t, name)
    ensures forall row :: row in Touch(t, name) ==> row in t || row == Row(name, Null)
  {
    if !Has(t, name) {
      InsertKeepsOrder(t, Row(name, Null));
      var p := Position(t, name, 0);
      assert Touch(t, name)[p] == Row(name, Null);
      assert t == t[..p] + t[p..];
    }
  }

  lemma InsertKeepsOrder(t: Table, row: Row)
    requires Ordered(t) && !Has(t, row.name)
    ensures Ordered(Inserted(t, row))
  {
    var p := Position(t, row.name, 0);
    var r := Inserted(t, row);
    forall i | p <= i < |t| ensures Less(row.name, t[i].name) {
      LessTotal(row.name, t[p].name);
      if p < i { LessTransitive(row.name, t[p].name, t[i].name); }
    }
    assert forall i :: 0 <= i < |r| ==> r[i] == (if i < p then t[i] else if i == p then row else t[i - 1]);
  }

  // ---------------------------------------------------------------- the loops

  /** A loop over the table: the new table, the names of the workers it handled, and the code of the
      exception that ended it, 0 for none. */
  datatype Outcome = Outcome(table: Table, done: seq<string>, err: int)

  /** initImplementation on the workers from row i on. A worker in the wrong state is put back. */
  function InitFrom(t: Table, i: nat): Outcome
    requires i <= |t|
    decreases |t| - i
  {
    if i == |t| then Outcome(t, [], 0)
    else
      match t[i].worker
      case Null => Outcome(t, [], -1)
      case Service(true) => Outcome(t[i := Row(t[i].name, Service(false))], [], -2)
      case Service(false) =>
        var o := InitFrom(t[i := Row(t[i].name, Service(true))], i + 1);
        Outcome(o.table, [t[i].name] + o.done, o.err)
  }

  function InitAll(t: Table): Outcome {
    InitFrom(t, 0)
  }

  /** deinitImplementation on the workers from row i on. */
  function DeinitFrom(t: Table, i: nat): Outcome
    requires i <= |t|
    decreases |t| - i
  {
    if i == |t| then Outcome(t, [], 0)
    else
      match t[i].worker
      case Null => Outcome(t, [], -1)
      case Service(false) => Outcome(t, [], -2)
      case Service(true) =>
        var o := DeinitFrom(t[i := Row(t[i].name, Service(false))], i + 1);
        Outcome(o.table, [t[i].name] + o.done, o.err)
  }

  function DeinitAll(t: Table): Outcome {
    DeinitFrom(t, 0)
  }

  method RunInit(workers: Table) returns (o: Outcome)
    ensures o == InitAll(workers)
  {
    var t, done := workers, [];
    for i := 0 to |workers|
      invariant |t| == |workers|
      invariant InitAll(workers)
                == (var rest := InitFrom(t, i); Outcome(rest.table, done + rest.done, rest.err))
    {
      match t[i].worker {
        case Null => return Outcome(t, done, -1);
        case Service(true) => return Outcome(t[i := Row(t[i].name, Service(false))], done, -2);
        case Service(false) =>
          done := done + [t[i].name];
          t := t[i := Row(t[i].name, Service(true))];
      }
    }
    return Outcome(t, done, 0);
  }

  method RunDeinit(workers: Table) returns (o: Outcome)
    ensures o == DeinitAll(workers)
  {
    var t, done := workers, [];
    for i := 0 to |workers|
      invariant |t| == |workers|
      invariant DeinitAll(workers)
                == (var rest := DeinitFrom(t, i); Outcome(rest.table, done + rest.done, rest.err))
    {
      match t[i].worker {
        case Null => return Outcome(t, done, -1);
        case Service(false) => return Outcome(t, done, -2);
        case Service(true) =>
          done := done + [t[i].name];
          t := t[i := Row(t[i].name, Service(false))];
      }
    }
    return Outcome(t, done, 0);
  }

  /** A loop runs to its end iff every worker is there and in the state it starts from. */
  lemma {:induction false} LoopEndsIff(t: Table, i: nat)
    requires i <= |t|
    ensures InitFrom(t, i).err == 0 <==> forall j :: i <= j < |t| ==> t[j].worker == Service(false)
    ensures DeinitFrom(t, i).err == 0 <==> forall j :: i <= j < |t| ==> t[j].worker == Service(true)
    decreases |t| - i
  {
    if i < |t| {
      var on, off := t[i := Row(t[i].name, Service(true))], t[i := Row(t[i].name, Service(false))];
      LoopEndsIff(on, i + 1);
      LoopEndsIff(off, i + 1);
      assert forall j :: i < j < |t| ==> on[j] == t[j] && off[j] == t[j];
    }
  }

  /** The rows from i up to f are in the given state. */
  predicate AllIn(t: Table, i: nat, f: nat, w: Worker)
    requires f <= |t|
  {
    forall j :: i <= j < f ==> t[j].worker == w
  }

  function NamesOf(t: Table, i: nat, f: nat): (names: seq<string>)
    requires i <= f <= |t|
    ensures |names| == f - i && forall j :: 0 <= j < f - i ==> names[j] == t[i + j].name
  {
    seq(f - i, j requires 0 <= j < f - i => t[i + j].name)
  }

  lemma NamesNext(t: Table, i: nat, f: nat, w: Worker)
    requires i < f <= |t|
    ensures NamesOf(t, i, f) == [t[i].name] + NamesOf(t[i := Row(t[i].name, w)], i + 1, f)
  {}

  /** What initialising does, row by row: it starts the workers up to the first that is missing or
      already initialised, puts back one that was already initialised, and leaves the rest as it
      is. */
  lemma {:induction false} InitStopsAt(t: Table, i: nat, f: nat, j: nat)
    requires i <= f <= |t| && j < |t| && AllIn(t, i, f, Service(false))
    requires f < |t| ==> t[f].worker != Service(false)
    ensures var o := InitFrom(t, i);
            && o.done == NamesOf(t, i, f) && |o.table| == |t|
            && o.err == (if f == |t| then 0 else if t[f].worker == Null then -1 else -2)
            && o.table[j] == Row(t[j].name,
                                 if i <= j < f then Service(true)
                                 else if j == f && t[f].worker == Service(true) then Service(false)
                                 else t[j].worker)
    decreases f - i
  {
    hide NamesOf;
    if i < f {
      InitStopsAt(t[i := Row(t[i].name, Service(true))], i + 1, f, j);
      NamesNext(t, i, f, Service(true));
    }
  }

  /** What deinitialising does, row by row: it stops the workers up to the first that is missing or
      not initialised, and leaves that one and the rest as they are. */
  lemma {:induction false} DeinitStopsAt(t: Table, i: nat, f: nat, j: nat)
    requires i <= f <= |t| && j < |t| && AllIn(t, i, f, Service(true))
    requires f < |t| ==> t[f].worker != Service(true)
    ensures var o := DeinitFrom(t, i);
            && o.done == NamesOf(t, i, f) && |o.table| == |t|
            && o.err == (if f == |t| then 0 else if t[f].worker == Null then -1 else -2)
            && o.table[j] == Row(t[j].name, if i <= j < f then Service(false) else t[j].worker)
    decreases f - i
  {
    hide NamesOf;
    if i < f {
      DeinitStopsAt(t[i := Row(t[i].name, Service(false))], i + 1, f, j);
      NamesNext(t, i, f, Service(false));
    }
  }

  /** Once a name without a worker was looked up, neither loop ever runs to its end again. */
  lemma LookupStopsLoops(t: Table, name: string)
    requires !Has(t, name)
    ensures InitAll(Touch(t, name)).err != 0 && DeinitAll(Touch(t, name)).err != 0
  {
    var p := Position(t, name, 0);
    assert Touch(t, name)[p] == Row(name, Null);
    LoopEndsIff(Touch(t, name), 0);
  }

  // ---------------------------------------------------------------- the agent's tables

  const FRESH: Table := [Row(PROCESS_WORKER, Service(false))]
  const SESSION: Table := [Row(LOG_WORKER, Null), Row(PROCESS_WORKER, Service(true))]

  const STARTED: Table := [Row(PROCESS_WORKER, Service(true))]

  lemma LogSortsFirst()
    ensures Less(LOG_WORKER, PROCESS_WORKER) && !Less(PROCESS_WORKER, LOG_WORKER)
    ensures PROCESS_WORKER != LOG_WORKER
  {
    assert LOG_WORKER[0] == 'L' && PROCESS_WORKER[0] == 'P';
  }

  lemma LookupOnTables()
    ensures Add([], PROCESS_WORKER) == FRESH && FRESH != SESSION
    ensures Touch(STARTED, PROCESS_WORKER) == STARTED && Touch(STARTED, LOG_WORKER) == SESSION
  {
    LogSortsFirst();
    assert !Has([], PROCESS_WORKER);
    assert STARTED[0].name == PROCESS_WORKER;
    assert Position(STARTED, LOG_WORKER, 0) == 0;
    assert |FRESH| == 1 && |SESSION| == 2;
  }

  /** The tables an agent can have, and what the loops and lookups make of them. */
  lemma LoopsOnTables()
    ensures Add([], PROCESS_WORKER) == FRESH && FRESH != SESSION
    ensures InitAll(FRESH) == Outcome(STARTED, [PROCESS_WORKER], 0)
    ensures Touch(Touch(STARTED, PROCESS_WORKER), LOG_WORKER) == SESSION
    ensures InitAll(SESSION) == Outcome(SESSION, [], -1)
    ensures DeinitAll(SESSION) == Outcome(SESSION, [], -1)
    ensures DeinitAll(FRESH) == Outcome(FRESH, [], -2)
  {
    hide Touch, Add;
    LookupOnTables();
    assert FRESH[0 := Row(PROCESS_WORKER, Service(true))] == STARTED;
    assert InitFrom(STARTED, 1) == Outcome(STARTED, [], 0);
    assert [PROCESS_WORKER] + [] == [PROCESS_WORKER];
  }
}
