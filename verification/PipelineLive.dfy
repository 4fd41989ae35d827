/** What a put owes the live cache before it may be archived or answered. */
module PipelineLive {
  import opened Basics
  import opened Folds
  import opened Pipeline
  import opened PipelineSafety
  import W = DataWorker
  import S = WorkerSafety

  /** Is this handler about to write put j to the cache? */
  ghost function Caching(j: Job): Handler -> int {
    (h: Handler) => if h.AtCache? && h.put == j then 1 else 0
  }

  /** Is put j past the cache without an error, and not yet handed on? */
  ghost function Passed(j: Job): Handler -> int {
    (h: Handler) => if ((h.AtTest? && !h.err) || h.AtSubmit?) && h.put == j then 1 else 0
  }

  ghost function Called(j: Job): W.State -> int {
    (s: W.State) => S.Times(s.log.called, j)
  }

  /** How often put j was handed on: to a worker if it has the history bit, else to its caller. */
  ghost function HandedOn(p: State, j: Job): int {
    if HistoryBit(j.tag) then Sum(p.workers, Called(j)) else S.Times(p.log.succeeded, j)
  }

  ghost predicate LiveFlow(p: State, j: Job) {
    && (LiveBit(j.tag) ==>
          S.Times(p.log.received, j)
          == S.Times(p.log.live, j) + S.Times(p.log.unwritten, j) + Sum(p.handlers, Caching(j)))
    && HandedOn(p, j) + Sum(p.handlers, Passed(j))
       == S.Times(if LiveBit(j.tag) then p.log.live else p.log.received, j)
  }

  // ---------------------------------------------------------------- every step keeps it

  lemma FlowAlone(p: State, a: Action, j: Job)
    requires HandlerAlone(a) && Placed(p) && Step(p, a).Some? && LiveFlow(p, j)
    ensures LiveFlow(Step(p, a).value, j)
  {
    hide Prefix;
    var p' := Step(p, a).value;
    SumUpdate(p.handlers, a.t, p'.handlers[a.t], Caching(j));
    SumUpdate(p.handlers, a.t, p'.handlers[a.t], Passed(j));
    match a
    case Receive(t, put) => SumPush(p.log.received, put, S.Is(j));
    case WriteCache(t, ok) =>
      var put := p.handlers[t].put;
      SumPush(p.log.live, put, S.Is(j));
      SumPush(p.log.unwritten, put, S.Is(j));
    case Test(t) => SumPush(p.log.succeeded, p.handlers[t].put, S.Is(j));
  }

  lemma FlowEnter(p: State, t: nat, j: Job)
    requires Placed(p) && Step(p, Enter(t)).Some? && LiveFlow(p, j)
    ensures LiveFlow(Step(p, Enter(t)).value, j)
  {
    hide Prefix;
    var p' := Step(p, Enter(t)).value;
    var put, w := p.handlers[t].put, p.handlers[t].w;
    SumUpdate(p.handlers, t, p'.handlers[t], Caching(j));
    SumUpdate(p.handlers, t, p'.handlers[t], Passed(j));
    SumUpdate(p.workers, w, p'.workers[w], Called(j));
    SumPush(p.workers[w].log.called, put, S.Is(j));
  }

  lemma FlowWorker(p: State, w: nat, act: W.Action, j: Job)
    requires Placed(p) && Step(p, Worker(w, act)).Some? && LiveFlow(p, j)
    ensures LiveFlow(Step(p, Worker(w, act)).value, j)
  {
    hide Prefix, Step, W.Step;
    WorkerEffect(p, w, act);
    StepCalls(p.workers[w], act);
    SumUpdate(p.workers, w, W.Step(p.workers[w], act).value, Called(j));
    match Completes(p, w, act)
    case Some(t) =>
      SumUpdate(p.handlers, t, Idle, Caching(j));
      SumUpdate(p.handlers, t, Idle, Passed(j));
      SumPush(p.log.succeeded, p.handlers[t].put, S.Is(j));
    case None =>
  }

  lemma FlowInitial(p: State, j: Job)
    requires Initial(p)
    ensures LiveFlow(p, j)
  {
    SumZero(p.workers, Called(j));
    SumZero(p.handlers, Caching(j));
    SumZero(p.handlers, Passed(j));
  }

  lemma {:induction false} FlowRun(p: State, acts: seq<Action>, j: Job)
    requires Inv(p) && LiveFlow(p, j) && Run(p, acts).Some?
    ensures LiveFlow(Run(p, acts).value, j)
  {
    hide Step, LiveFlow, WorkersSound, Rotates, CacheLatest, Placed;
    if acts != [] {
      var q, a := Run(p, acts[..|acts| - 1]).value, acts[|acts| - 1];
      InvRun(p, acts[..|acts| - 1]);
      FlowRun(p, acts[..|acts| - 1], j);
      match a
      case Enter(t) => FlowEnter(q, t, j);
      case Worker(w, act) => FlowWorker(q, w, act, j);
      case _ => FlowAlone(q, a, j);
    }
  }

  lemma ReachableFlow(p: State, j: Job)
    requires Reachable(p)
    ensures LiveFlow(p, j)
  {
    var p0: State, acts: seq<Action> :| Initial(p0) && Run(p0, acts) == Some(p);
    InvInitial(p0);
    FlowInitial(p0, j);
    FlowRun(p0, acts, j);
  }

  // ---------------------------------------------------------------- main results

  /** Every put with the live bit has been written to the cache, has failed to be, or is about to
      be. */
  lemma EveryLivePutIsCached(p: State, j: Job)
    requires Reachable(p) && LiveBit(j.tag)
    ensures S.Times(p.log.received, j)
            == S.Times(p.log.live, j) + S.Times(p.log.unwritten, j) + Sum(p.handlers, Caching(j))
  {
    ReachableFlow(p, j);
  }

  /** No put is archived before, or instead of, its cache write: over all workers, the calls with a
      put that is both live and history, with the handlers on their way to such a call, are exactly
      its successful cache writes. */
  lemma CachedBeforeArchived(p: State, j: Job)
    requires Reachable(p) && LiveBit(j.tag) && HistoryBit(j.tag)
    ensures Sum(p.workers, Called(j)) + Sum(p.handlers, Passed(j)) == S.Times(p.log.live, j)
    ensures S.Times(p.log.succeeded, j) <= S.Times(p.log.live, j)
  {
    ReachableFlow(p, j);
    SuccessWasCalled(p, j);
    CountBounds(p.handlers, Passed(j));
  }

  /** A put that returned 0 with the history bit was handed to a worker. */
  lemma SuccessWasCalled(p: State, j: Job)
    requires Reachable(p) && HistoryBit(j.tag)
    ensures S.Times(p.log.succeeded, j) <= Sum(p.workers, Called(j))
  {
    ReachableInv(p);
    assert ReturnsMatch(p, j);
    forall w | 0 <= w < |p.workers| ensures Returned(j)(p.workers[w]) <= Called(j)(p.workers[w]) {
      ReturnedWasCalled(p.workers[w], j);
    }
    SumAtMost(p.workers, Returned(j), Called(j));
  }

  lemma ReturnedWasCalled(s: W.State, j: Job)
    requires S.Inv(s)
    ensures Returned(j)(s) <= Called(j)(s)
  {
    assert S.JobAccounted(s, j);
    CountBounds(s.log.rejected, S.Is(j));
    CountBounds(s.subs, S.Pending(j));
    CountBounds(s.subs, S.Returning(j));
  }

  /** A put with only the live bit returns 0 exactly once per successful cache write. */
  lemma LiveOnlyAnswers(p: State, j: Job)
    requires Reachable(p) && LiveBit(j.tag) && !HistoryBit(j.tag)
    ensures S.Times(p.log.succeeded, j) + Sum(p.handlers, Passed(j)) == S.Times(p.log.live, j)
  {
    ReachableFlow(p, j);
  }

  /** A put without the live bit goes straight on: every one received was handed to a worker or
      answered, or is on its way. */
  lemma OthersGoStraightOn(p: State, j: Job)
    requires Reachable(p) && !LiveBit(j.tag)
    ensures HandedOn(p, j) + Sum(p.handlers, Passed(j)) == S.Times(p.log.received, j)
  {
    ReachableFlow(p, j);
  }
}
