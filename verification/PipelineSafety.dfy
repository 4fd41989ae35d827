/** What every interleaving of the put path keeps, and the end-to-end results. */
module PipelineSafety {
  import opened Basics
  import opened Folds
  import opened RoundRobin
  import opened Pipeline
  import W = DataWorker
  import S = WorkerSafety

  // ---------------------------------------------------------------- one worker line, seen outside

  /** A line of a worker empties a submitter slot only by returning from submitJobInfo. */
  ghost predicate SlotsMoved(s: W.State, a: W.Action, s': W.State) {
    && |s'.subs| == |s.subs|
    && forall t :: 0 <= t < |s.subs| ==>
         && (s.subs[t] == W.Outside ==> s'.subs[t] == W.Outside)
         && (s.subs[t] != W.Outside && s'.subs[t] != W.Outside ==> s'.subs[t].job == s.subs[t].job)
         && (s.subs[t] != W.Outside && s'.subs[t] == W.Outside ==>
               a.Submit? && a.t == t && (s.subs[t].AtGaugeBytes? || s.subs[t].AtReject?))
  }

  lemma SubmitSlots(s: W.State, t: nat, wake: Option<nat>)
    requires t < |s.subs| && W.SubmitStep(s, t, wake).Some?
    ensures SlotsMoved(s, W.Submit(t, wake), W.SubmitStep(s, t, wake).value)
  {
    S.SubmitMoves(s, t, wake);
  }

  lemma StepSlots(s: W.State, a: W.Action)
    requires !a.Call? && W.Step(s, a).Some?
    ensures SlotsMoved(s, a, W.Step(s, a).value)
  {
    match a
    case Submit(t, wake) => SubmitSlots(s, t, wake);
    case Consume(k, wake) => S.ConsumeMoves(s, k, wake);
    case _ =>
  }

  /** Only the last line of a successful submitJobInfo records a return. */
  lemma StepReturns(s: W.State, a: W.Action)
    requires W.Step(s, a).Some?
    ensures W.Step(s, a).value.log.returned
            == if a.Submit? && a.t < |s.subs| && s.subs[a.t].AtGaugeBytes?
               then s.log.returned + [s.subs[a.t].job] else s.log.returned
  {
    match a
    case Submit(t, wake) => match s.subs[t] { case AtGaugeBytes(_) => case _ => }
    case _ =>
  }

  // ---------------------------------------------------------------- steps of a handler alone

  predicate HandlerAlone(a: Action) {
    a.Receive? || a.WriteCache? || a.Test?
  }

  lemma PlacedAlone(p: State, a: Action)
    requires HandlerAlone(a) && Placed(p) && Step(p, a).Some?
    ensures Placed(Step(p, a).value)
  {
    var p' := Step(p, a).value;
    assert p'.workers == p.workers;
    forall t | 0 <= t < |p.handlers| ensures Seated(p', t) { assert Seated(p, t); }
  }

  lemma RotatesAlone(p: State, a: Action)
    requires HandlerAlone(a) && Rotates(p) && Step(p, a).Some?
    ensures Rotates(Step(p, a).value)
  {
    hide W.Step;
    NextSlot(|p.log.picks|, INDEX_PERIOD);
  }

  lemma CacheLatestAlone(p: State, a: Action)
    requires HandlerAlone(a) && Placed(p) && CacheLatest(p) && Step(p, a).Some?
    ensures CacheLatest(Step(p, a).value)
  {
    var p' := Step(p, a).value;
    if a.WriteCache? && a.ok {
      var put := p.handlers[a.t].put;
      forall key | key in p'.cache ensures Latest(p'.log.live, key, p'.cache[key]) {
        if key == put.key {
          assert p'.log.live[|p.log.live|] == put;
        } else {
          var i :| 0 <= i < |p.log.live| && p.log.live[i] == p.cache[key] && p.cache[key].key == key
                   && forall k :: i < k < |p.log.live| ==> p.log.live[k].key != key;
          assert p'.log.live[i] == p.cache[key];
        }
      }
    } else {
      assert p'.log.live == p.log.live && p'.cache == p.cache;
    }
  }

  lemma PutsAlone(p: State, a: Action, j: Job)
    requires HandlerAlone(a) && Step(p, a).Some?
    requires PutsConserved(p, j) && ReturnsMatch(p, j)
    ensures PutsConserved(Step(p, a).value, j) && ReturnsMatch(Step(p, a).value, j)
  {
    var p' := Step(p, a).value;
    SumUpdate(p.handlers, a.t, p'.handlers[a.t], Busy(j));
    match a
    case Receive(t, put) => SumPush(p.log.received, put, S.Is(j));
    case WriteCache(t, ok) =>
    case Test(t) =>
      var put := p.handlers[t].put;
      SumPush(p.log.succeeded, put, S.Is(j));
      SumPush(p.log.failed, put, S.Is(j));
  }

  lemma InvAlone(p: State, a: Action)
    requires HandlerAlone(a) && Inv(p) && Step(p, a).Some?
    ensures Inv(Step(p, a).value)
  {
    PlacedAlone(p, a);
    RotatesAlone(p, a);
    CacheLatestAlone(p, a);
    forall j ensures PutsConserved(Step(p, a).value, j) && ReturnsMatch(Step(p, a).value, j) {
      assert PutsConserved(p, j) && ReturnsMatch(p, j);
      PutsAlone(p, a, j);
    }
  }

  // ---------------------------------------------------------------- entering a worker

  lemma PlacedEnter(p: State, t: nat)
    requires Placed(p) && Step(p, Enter(t)).Some?
    ensures Placed(Step(p, Enter(t)).value)
  {
    var p' := Step(p, Enter(t)).value;
    forall u | 0 <= u < |p.handlers| ensures Seated(p', u) { assert Seated(p, u); }
  }

  lemma PutsEnter(p: State, t: nat, j: Job)
    requires Step(p, Enter(t)).Some? && PutsConserved(p, j) && ReturnsMatch(p, j)
    ensures PutsConserved(Step(p, Enter(t)).value, j) && ReturnsMatch(Step(p, Enter(t)).value, j)
  {
    var p' := Step(p, Enter(t)).value;
    var w := p.handlers[t].w;
    SumUpdate(p.handlers, t, p'.handlers[t], Busy(j));
    SumUpdate(p.workers, w, p'.workers[w], Returned(j));
  }

  lemma InvEnter(p: State, t: nat)
    requires Inv(p) && Step(p, Enter(t)).Some?
    ensures Inv(Step(p, Enter(t)).value)
  {
    PlacedEnter(p, t);
    S.InvStep(p.workers[p.handlers[t].w], W.Call(t, p.handlers[t].put));
    forall j ensures PutsConserved(Step(p, Enter(t)).value, j)
                     && ReturnsMatch(Step(p, Enter(t)).value, j)
    {
      assert PutsConserved(p, j) && ReturnsMatch(p, j);
      PutsEnter(p, t, j);
    }
  }

  // ---------------------------------------------------------------- a line of a worker

  /** The handler whose call the action completes. */
  ghost function Completes(p: State, w: nat, act: W.Action): Option<nat>
    requires w < |p.workers|
  {
    if act.Submit? && act.t < |p.handlers| && act.t < |p.workers[w].subs|
       && (p.workers[w].subs[act.t].AtGaugeBytes? || p.workers[w].subs[act.t].AtReject?)
    then Some(act.t) else None
  }

  /** A worker line either leaves the handlers alone or returns from one of them. */
  lemma WorkerEffect(p: State, w: nat, act: W.Action)
    requires Placed(p) && Step(p, Worker(w, act)).Some?
    ensures w < |p.workers| && !act.Call? && W.Step(p.workers[w], act).Some?
    ensures var q := p.(workers := p.workers[w := W.Step(p.workers[w], act).value]);
            Step(p, Worker(w, act)).value
            == match Completes(p, w, act)
               case None => q
               case Some(t) => Return(q, t, p.handlers[t].put, !p.workers[w].subs[t].AtReject?)
    ensures Completes(p, w, act).Some? ==>
              var t := act.t;
              && p.handlers[t].Submitting? && p.handlers[t].w == w
              && p.handlers[t].put == p.workers[w].subs[t].job
  {
    StepSlots(p.workers[w], act);
    if act.Submit? && act.t < |p.handlers| {
      assert Seated(p, act.t);
      CompletesExactly(p.workers[w], act.t, act.wake);
    }
  }

  lemma CompletesExactly(s: W.State, t: nat, wake: Option<nat>)
    requires t < |s.subs| && W.SubmitStep(s, t, wake).Some?
    ensures W.SubmitStep(s, t, wake).value.subs[t] == W.Outside
            <==> s.subs[t].AtGaugeBytes? || s.subs[t].AtReject?
  {}

  lemma PlacedWorker(p: State, w: nat, act: W.Action)
    requires Placed(p) && Step(p, Worker(w, act)).Some?
    ensures Placed(Step(p, Worker(w, act)).value)
  {
    WorkerEffect(p, w, act);
    StepSlots(p.workers[w], act);
    var p' := Step(p, Worker(w, act)).value;
    forall t | 0 <= t < |p.handlers| ensures Seated(p', t) {
      assert Seated(p, t);
      if Completes(p, w, act) == Some(t) {
        CompletesExactly(p.workers[w], t, act.wake);
      }
    }
  }

  lemma PutsWorker(p: State, w: nat, act: W.Action, j: Job)
    requires Placed(p) && Step(p, Worker(w, act)).Some?
    requires PutsConserved(p, j) && ReturnsMatch(p, j)
    ensures PutsConserved(Step(p, Worker(w, act)).value, j)
    ensures ReturnsMatch(Step(p, Worker(w, act)).value, j)
  {
    WorkerEffect(p, w, act);
    var s := p.workers[w];
    var s' := W.Step(s, act).value;
    StepReturns(s, act);
    SumUpdate(p.workers, w, s', Returned(j));
    match Completes(p, w, act)
    case Some(t) =>
      var put := p.handlers[t].put;
      SumUpdate(p.handlers, t, Idle, Busy(j));
      SumPush(p.log.succeeded, put, S.Is(j));
      SumPush(p.log.failed, put, S.Is(j));
      SumPush(s.log.returned, put, S.Is(j));
    case None =>
      assert s'.log.returned == s.log.returned;
  }

  lemma InvWorker(p: State, w: nat, act: W.Action)
    requires Inv(p) && Step(p, Worker(w, act)).Some?
    ensures Inv(Step(p, Worker(w, act)).value)
  {
    WorkerEffect(p, w, act);
    PlacedWorker(p, w, act);
    S.InvStep(p.workers[w], act);
    forall j ensures PutsConserved(Step(p, Worker(w, act)).value, j)
                     && ReturnsMatch(Step(p, Worker(w, act)).value, j)
    {
      assert PutsConserved(p, j) && ReturnsMatch(p, j);
      PutsWorker(p, w, act, j);
    }
  }

  // ---------------------------------------------------------------- every run

  lemma InvInitial(p: State)
    requires Initial(p)
    ensures Inv(p)
  {
    forall w | 0 <= w < |p.workers| ensures S.Inv(p.workers[w]) {
      var maxElement: nat, consumers: nat :|
        p.workers[w] == W.Init(maxElement, |p.handlers|, consumers);
      S.InvInit(maxElement, |p.handlers|, consumers);
    }
    forall j ensures ReturnsMatch(p, j) && PutsConserved(p, j) {
      SumZero(p.workers, Returned(j));
      SumZero(p.handlers, Busy(j));
    }
  }

  lemma {:induction false} InvRun(p: State, acts: seq<Action>)
    requires Inv(p) && Run(p, acts).Some?
    ensures Inv(Run(p, acts).value)
  {
    if acts != [] {
      var q, a := Run(p, acts[..|acts| - 1]).value, acts[|acts| - 1];
      InvRun(p, acts[..|acts| - 1]);
      match a
      case Enter(t) => InvEnter(q, t);
      case Worker(w, act) => InvWorker(q, w, act);
      case _ => InvAlone(q, a);
    }
  }

  ghost predicate Reachable(p: State) {
    exists p0: State, acts: seq<Action> :: Initial(p0) && Run(p0, acts) == Some(p)
  }

  lemma ReachableInv(p: State)
    requires Reachable(p)
    ensures Inv(p)
  {
    var p0: State, acts: seq<Action> :| Initial(p0) && Run(p0, acts) == Some(p);
    InvInitial(p0);
    InvRun(p0, acts);
  }

  // ---------------------------------------------------------------- main results

  /** Copies of job j that a worker handed to pushObject, has in flight or has queued. */
  ghost function Archive(j: Job): W.State -> int {
    (s: W.State) =>
      S.Times(s.log.stored, j) + Sum(s.cons, S.InFlight(j)) + S.Times(s.queue, j)
  }

  /** Copies of job j that a worker executed under a tag that executeJob ignores. */
  ghost function Ignored(j: Job): W.State -> int {
    (s: W.State) => S.Times(s.log.dropped, j)
  }

  /** Handlers that pushed job j and have not returned yet. */
  ghost function Leaving(j: Job): W.State -> int {
    (s: W.State) => Sum(s.subs, S.Returning(j))
  }

  ghost function Accepted(j: Job): W.State -> int {
    (s: W.State) => S.Times(s.log.accepted, j)
  }

  lemma WorkerBalance(s: W.State, j: Job)
    requires S.Inv(s)
    ensures Accepted(j)(s) == Archive(j)(s) + Ignored(j)(s)
    ensures Accepted(j)(s) == Returned(j)(s) + Leaving(j)(s)
    ensures if W.Archived(j) then Ignored(j)(s) == 0 else S.Times(s.log.stored, j) == 0
  {
    assert S.JobAccounted(s, j);
    SumConcat(s.log.popped, s.queue, S.Is(j));
    if W.Archived(j) { SumZero(s.log.dropped, S.Is(j)); } else { SumZero(s.log.stored, S.Is(j)); }
  }

  lemma Totals(p: State, j: Job)
    requires Inv(p)
    ensures Sum(p.workers, Returned(j)) + Sum(p.workers, Leaving(j))
            == Sum(p.workers, Archive(j)) + Sum(p.workers, Ignored(j))
    ensures W.Archived(j) ==> Sum(p.workers, Ignored(j)) == 0
  {
    forall w | 0 <= w < |p.workers|
      ensures Accepted(j)(p.workers[w]) == Archive(j)(p.workers[w]) + Ignored(j)(p.workers[w])
      ensures Accepted(j)(p.workers[w]) == Returned(j)(p.workers[w]) + Leaving(j)(p.workers[w])
      ensures W.Archived(j) ==> Ignored(j)(p.workers[w]) == 0
    {
      WorkerBalance(p.workers[w], j);
    }
    SumPlus(p.workers, Archive(j), Ignored(j), Accepted(j));
    SumPlus(p.workers, Returned(j), Leaving(j), Accepted(j));
    if W.Archived(j) { SumZero(p.workers, Ignored(j)); }
  }

  /** End to end: over all workers, what was handed to pushObject, is in flight or is queued is
      exactly what history puts returned 0 for, up to the handlers about to return. */
  lemma ArchiveIsWhatSucceeded(p: State, j: Job)
    requires Reachable(p) && HistoryBit(j.tag) && Legal(j.tag)
    ensures Sum(p.workers, Archive(j))
            == S.Times(p.log.succeeded, j) + Sum(p.workers, Leaving(j))
  {
    hide Reachable, Placed, WorkersSound, Rotates, CacheLatest, PutsConserved, Prefix;
    ReachableInv(p);
    assert ReturnsMatch(p, j);
    Totals(p, j);
  }

  // ---------------------------------------------------------------- which puts reach a worker

  /** Every job a worker was ever called with has the history bit. */
  ghost predicate OnlyHistory(p: State) {
    forall w, j :: 0 <= w < |p.workers| && j in p.workers[w].log.called ==> HistoryBit(j.tag)
  }

  lemma StepCalls(s: W.State, a: W.Action)
    requires !a.Call? && W.Step(s, a).Some?
    ensures W.Step(s, a).value.log.called == s.log.called
  {
    match a
    case Submit(t, wake) =>
    case Consume(k, wake) =>
    case _ =>
  }

  lemma OnlyHistoryStep(p: State, a: Action)
    requires Placed(p) && OnlyHistory(p) && Step(p, a).Some?
    ensures OnlyHistory(Step(p, a).value)
  {
    hide W.SubmitStep, W.ConsumeStep;
    match a
    case Worker(w, act) =>
      hide W.Step;
      WorkerEffect(p, w, act);
      StepCalls(p.workers[w], act);
    case Enter(t) =>
    case _ =>
  }

  lemma {:induction false} OnlyHistoryRun(p: State, acts: seq<Action>)
    requires Inv(p) && OnlyHistory(p) && Run(p, acts).Some?
    ensures OnlyHistory(Run(p, acts).value)
  {
    hide Step, OnlyHistory, WorkersSound, Rotates, CacheLatest, Placed;
    if acts != [] {
      OnlyHistoryRun(p, acts[..|acts| - 1]);
      InvRun(p, acts[..|acts| - 1]);
      OnlyHistoryStep(Run(p, acts[..|acts| - 1]).value, acts[|acts| - 1]);
    }
  }

  lemma ReachableOnlyHistory(p: State)
    requires Reachable(p)
    ensures OnlyHistory(p)
  {
    var p0: State, acts: seq<Action> :| Initial(p0) && Run(p0, acts) == Some(p);
    InvInitial(p0);
    OnlyHistoryRun(p0, acts);
  }

  /** A job a worker was not called with is nowhere in it. */
  lemma NeverCalled(s: W.State, j: Job)
    requires S.Inv(s) && S.Times(s.log.called, j) == 0
    ensures S.Times(s.log.accepted, j) == 0 && S.Times(s.log.rejected, j) == 0
    ensures Archive(j)(s) == 0 && Ignored(j)(s) == 0
  {
    assert S.JobAccounted(s, j);
    WorkerBalance(s, j);
    CountBounds(s.log.accepted, S.Is(j)); CountBounds(s.log.rejected, S.Is(j));
    CountBounds(s.subs, S.Pending(j)); CountBounds(s.log.stored, S.Is(j));
    CountBounds(s.queue, S.Is(j)); CountBounds(s.cons, S.InFlight(j));
    CountBounds(s.log.dropped, S.Is(j));
  }

  /** A put without the history bit never reaches a worker: none is called with it, so none accepts,
      rejects, stores, holds or drops it. */
  lemma LiveOnlyNeverArchived(p: State, j: Job, w: nat)
    requires Reachable(p) && !HistoryBit(j.tag) && w < |p.workers|
    ensures var s := p.workers[w];
            && S.Times(s.log.called, j) == 0
            && S.Times(s.log.accepted, j) == 0 && S.Times(s.log.rejected, j) == 0
            && Archive(j)(s) == 0 && Ignored(j)(s) == 0
  {
    ReachableInv(p);
    ReachableOnlyHistory(p);
    var s := p.workers[w];
    assert S.Inv(s);
    SumZero(s.log.called, S.Is(j));
    NeverCalled(s, j);
  }

  // ---------------------------------------------------------------- undeclared tags

  /** For every history put, whatever its tag: over all workers, what was handed to pushObject, is in
      flight, is queued or was dropped under an undeclared tag is exactly what returned 0, up to the
      handlers about to return. */
  lemma HistoryAccounted(p: State, j: Job)
    requires Reachable(p) && HistoryBit(j.tag)
    ensures Sum(p.workers, Archive(j)) + Sum(p.workers, Ignored(j))
            == S.Times(p.log.succeeded, j) + Sum(p.workers, Leaving(j))
  {
    hide Reachable, Placed, WorkersSound, Rotates, CacheLatest, PutsConserved, Prefix;
    ReachableInv(p);
    assert ReturnsMatch(p, j);
    Totals(p, j);
  }

  /** No worker ever stores a put with an undeclared tag. */
  lemma UndeclaredTagNeverStored(p: State, j: Job, w: nat)
    requires Reachable(p) && !Legal(j.tag) && w < |p.workers|
    ensures S.Times(p.workers[w].log.stored, j) == 0
  {
    ReachableInv(p);
    WorkerBalance(p.workers[w], j);
  }

  /** The live cache holds, for each key, the last live put whose cache write succeeded, whether
      or not that put could then be queued. */
  lemma CacheHoldsLatest(p: State, key: string)
    requires Reachable(p)
    ensures key in p.cache <==> exists i :: 0 <= i < |p.log.live| && p.log.live[i].key == key
    ensures key in p.cache ==>
              Latest(p.log.live, key, p.cache[key]) && LiveBit(p.cache[key].tag)
  {
    ReachableInv(p);
    if key in p.cache {
      var i :| 0 <= i < |p.log.live| && p.log.live[i] == p.cache[key] && p.cache[key].key == key;
    }
  }

  /** Every received put has returned exactly once or is still being handled. */
  lemma EveryPutReturns(p: State, j: Job)
    requires Reachable(p)
    ensures S.Times(p.log.received, j)
            == S.Times(p.log.succeeded, j) + S.Times(p.log.failed, j) + Sum(p.handlers, Busy(j))
  {
    ReachableInv(p);
    assert PutsConserved(p, j);
  }

  // ---------------------------------------------------------------- the shared gauges

  ghost function ElementsGauge(s: W.State): int { s.metrics.elements }
  ghost function QueuedElements(s: W.State): int { Sum(s.queue, W.Elements) }
  ghost function CountedElements(s: W.State): int { Sum(s.cons, S.CountedElements) }
  ghost function UncountedElements(s: W.State): int { Sum(s.subs, S.UncountedElements) }
  ghost function TotalElements(s: W.State): int { s.metrics.elements + UncountedElements(s) }

  ghost function BytesGauge(s: W.State): int { s.metrics.bytes }
  ghost function QueuedBytes(s: W.State): int { Sum(s.queue, W.Bytes) }
  ghost function CountedBytes(s: W.State): int { Sum(s.cons, S.CountedBytes) }
  ghost function UncountedBytes(s: W.State): int { Sum(s.subs, S.UncountedBytes) }
  ghost function TotalBytes(s: W.State): int { s.metrics.bytes + UncountedBytes(s) }

  /** The workers of a process add to the same two gauges, which so show the sums over the workers:
      they equal the elements and bytes of all queues, up to exactly the jobs caught between two
      lines. */
  lemma SharedGauges(p: State)
    requires Reachable(p)
    ensures Sum(p.workers, ElementsGauge)
            == Sum(p.workers, QueuedElements) + Sum(p.workers, CountedElements)
               - Sum(p.workers, UncountedElements)
    ensures Sum(p.workers, BytesGauge)
            == Sum(p.workers, QueuedBytes) + Sum(p.workers, CountedBytes)
               - Sum(p.workers, UncountedBytes)
  {
    hide Reachable, Prefix, Placed, Rotates, CacheLatest, ReturnsMatch, PutsConserved;
    ReachableInv(p);
    forall w | 0 <= w < |p.workers|
      ensures TotalElements(p.workers[w]) == QueuedElements(p.workers[w]) + CountedElements(p.workers[w])
      ensures TotalBytes(p.workers[w]) == QueuedBytes(p.workers[w]) + CountedBytes(p.workers[w])
    {
      assert S.Inv(p.workers[w]);
    }
    SumPlus(p.workers, ElementsGauge, UncountedElements, TotalElements);
    SumPlus(p.workers, QueuedElements, CountedElements, TotalElements);
    SumPlus(p.workers, BytesGauge, UncountedBytes, TotalBytes);
    SumPlus(p.workers, QueuedBytes, CountedBytes, TotalBytes);
  }

  // ---------------------------------------------------------------- the rotation

  ghost function Chose(w: nat): nat -> int {
    (x: nat) => if x == w then 1 else 0
  }

  lemma {:induction false} PicksCount(p: State, n: nat, w: nat)
    requires Rotates(p) && n <= |p.log.picks| && w < |p.workers|
    ensures Prefix(p.log.picks, n, Chose(w)) == Uses(n, w, INDEX_PERIOD, |p.workers|)
  {
    if n != 0 { PicksCount(p, n - 1, w); }
  }

  /** After n archiving attempts two workers differ by at most floor(n / 65536) + 1 attempts, and
      by at most 1 when the number of workers divides 65536. */
  lemma WorkersShareEvenly(p: State, a: nat, b: nat)
    requires Reachable(p) && a < |p.workers| && b < |p.workers|
    ensures var n := |p.log.picks|;
            var gap := Distance(Sum(p.log.picks, Chose(a)), Sum(p.log.picks, Chose(b)));
            gap <= n / INDEX_PERIOD + 1 && (INDEX_PERIOD % |p.workers| == 0 ==> gap <= 1)
  {
    ReachableInv(p);
    PicksCount(p, |p.log.picks|, a);
    PicksCount(p, |p.log.picks|, b);
    Fair(|p.log.picks|, a, b, INDEX_PERIOD, |p.workers|);
  }
}
