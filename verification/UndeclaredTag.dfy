/** A history put with a tag that is none of the declared ones: a run in which it is queued, answered
with 0 and then dropped by the worker, so that the archive does not hold what succeeded. */
module UndeclaredTag {
  import opened Basics
  import opened Folds
  import opened Pipeline
  import opened PipelineSafety
  import W = DataWorker
  import S = WorkerSafety

  /** One handler, one worker with one consumer and room for one job. */
  function Small(): State {
    State([W.Init(1, 1, 1)], map[], 0, [Idle], Log([], [], [], [], [], []))
  }

  ghost predicate Reaches(p: State) {
    exists acts: seq<Action> :: Run(Small(), acts) == Some(p)
  }

  lemma Do(p: State, a: Action) returns (p': State)
    requires Reaches(p) && Step(p, a).Some?
    ensures p' == Step(p, a).value && Reaches(p')
  {
    hide Step;
    var acts: seq<Action> :| Run(Small(), acts) == Some(p);
    p' := Step(p, a).value;
    assert (acts + [a])[..|acts|] == acts;
    assert Run(Small(), acts + [a]) == Some(p');
  }

  /** Where the handler, the submitter and the consumer are, and what they hold. */
  ghost predicate Looks(p: State, h: Handler, sub: W.Submitter, con: W.Consumer, queue: seq<Job>) {
    && p.handlers == [h] && |p.workers| == 1
    && var s := p.workers[0];
       && s.subs == [sub] && s.cons == [con] && s.queue == queue && s.work && s.maxElement == 1
       && s.submitLock == (if S.HoldsSubmit(sub) then Some(0) else None)
       && s.jobLock == (if S.HoldsJob(con) then Some(0) else None)
       && s.inQueue == |queue| + S.Pushing(sub) + S.Decrementing(con)
       && s.log.stored == []
  }

  /** A worker's line that does not return from a call. */
  lemma Line(p: State, act: W.Action) returns (p': State)
    requires Reaches(p) && |p.workers| == 1 && !act.Call? && W.Step(p.workers[0], act).Some?
    requires act.Submit? ==> act.t < |W.Step(p.workers[0], act).value.subs|
                             && W.Step(p.workers[0], act).value.subs[act.t] != W.Outside
    ensures Reaches(p')
    ensures p' == p.(workers := [W.Step(p.workers[0], act).value])
  {
    hide W.Step, Reaches;
    p' := Do(p, Worker(0, act));
    assert p.workers[0 := W.Step(p.workers[0], act).value] == [W.Step(p.workers[0], act).value];
  }

  lemma Begin() returns (p: State)
    ensures Reaches(p) && Looks(p, Idle, W.Outside, W.AtLoop(false), [])
    ensures p.log.succeeded == [] && p.workers[0].log.dropped == []
  {
    assert Run(Small(), []) == Some(Small());
    assert Reaches(Small());
    hide Reaches;
    var a := Line(Small(), W.Start);
    p := Line(a, W.Spawn);
  }

  lemma Receive(p: State, j: Job) returns (p': State)
    requires HistoryBit(j.tag) && Reaches(p) && p.handlers == [Idle]
    ensures Reaches(p') && p'.handlers == [AtTest(j, false)] && p'.workers == p.workers
    ensures p'.log.succeeded == p.log.succeeded
  {
    hide Reaches, W.Step;
    var a := Do(p, Action.Receive(0, j));
    if LiveBit(j.tag) { a := Do(a, WriteCache(0, true)); }
    p' := a;
  }

  /** The put is received, written to the cache if it is live, and handed to the worker. */
  lemma Arrive(p: State, j: Job) returns (p': State)
    requires HistoryBit(j.tag) && Reaches(p) && Looks(p, Idle, W.Outside, W.AtLoop(false), [])
    ensures Reaches(p') && Looks(p', Submitting(j, 0), W.AtLock(j), W.AtLoop(false), [])
    ensures p'.log.succeeded == p.log.succeeded
    ensures p'.workers[0].log.dropped == p.workers[0].log.dropped
  {
    hide Reaches, W.SubmitStep, W.ConsumeStep;
    var a := Receive(p, j);
    a := Do(a, Test(0));
    assert a.handlers == [AtSubmit(j, 0)] && a.workers == p.workers;
    p' := Do(a, Enter(0));
  }

  lemma Count(p: State, j: Job) returns (p': State)
    requires Reaches(p) && Looks(p, Submitting(j, 0), W.AtLock(j), W.AtLoop(false), [])
    ensures Reaches(p') && Looks(p', Submitting(j, 0), W.AtNotify(j), W.AtLoop(false), [j])
    ensures p'.log.succeeded == p.log.succeeded
    ensures p'.workers[0].log.dropped == p.workers[0].log.dropped
  {
    hide Reaches, Step, W.ConsumeStep;
    var a := Line(p, W.Submit(0, None));
    a := Line(a, W.Submit(0, None));
    assert Looks(a, Submitting(j, 0), W.AtCount(j, false), W.AtLoop(false), []);
    a := Line(a, W.Submit(0, None));
    assert Looks(a, Submitting(j, 0), W.AtPush(j), W.AtLoop(false), []);
    p' := Line(a, W.Submit(0, None));
  }

  lemma Succeed(p: State, j: Job) returns (p': State)
    requires Reaches(p) && Looks(p, Submitting(j, 0), W.AtNotify(j), W.AtLoop(false), [j])
    ensures Reaches(p') && Looks(p', Idle, W.Outside, W.AtLoop(false), [j])
    ensures p'.log.succeeded == p.log.succeeded + [j]
    ensures p'.workers[0].log.dropped == p.workers[0].log.dropped
  {
    hide Reaches;
    var a := Line(p, W.Submit(0, None));
    a := Line(a, W.Submit(0, None));
    assert Looks(a, Submitting(j, 0), W.AtGaugeBytes(j), W.AtLoop(false), [j]);
    p' := Do(a, Worker(0, W.Submit(0, None)));
  }

  lemma Look(p: State, j: Job) returns (p': State)
    requires Reaches(p) && Looks(p, Idle, W.Outside, W.AtLoop(false), [j])
    ensures Reaches(p') && Looks(p', Idle, W.Outside, W.AtRecheck, [j])
    ensures p'.log.succeeded == p.log.succeeded
    ensures p'.workers[0].log.dropped == p.workers[0].log.dropped
  {
    hide Reaches, Step, W.SubmitStep;
    var a := Line(p, W.Consume(0, None));
    a := Line(a, W.Consume(0, None));
    assert Looks(a, Idle, W.Outside, W.AtWork, [j]);
    a := Line(a, W.Consume(0, None));
    p' := Line(a, W.Consume(0, None));
  }

  lemma Take(p: State, j: Job) returns (p': State)
    requires Reaches(p) && Looks(p, Idle, W.Outside, W.AtRecheck, [j])
    ensures Reaches(p') && Looks(p', Idle, W.Outside, W.AtDecrement(j), [])
    ensures p'.log.succeeded == p.log.succeeded
    ensures p'.workers[0].log.dropped == p.workers[0].log.dropped
  {
    hide Reaches, Step, W.SubmitStep;
    var a := Line(p, W.Consume(0, None));
    p' := Line(a, W.Consume(0, None));
  }

  lemma Drop(p: State, j: Job) returns (p': State)
    requires !Legal(j.tag)
    requires Reaches(p) && Looks(p, Idle, W.Outside, W.AtDecrement(j), [])
    ensures Reaches(p') && Looks(p', Idle, W.Outside, W.AtUngaugeElements(j), [])
    ensures p'.log.succeeded == p.log.succeeded
    ensures p'.workers[0].log.dropped == p.workers[0].log.dropped + [j]
  {
    hide Reaches, Step, W.SubmitStep;
    var a := Line(p, W.Consume(0, None));
    assert Looks(a, Idle, W.Outside, W.AtFree(j), []);
    a := Line(a, W.Consume(0, None));
    assert Looks(a, Idle, W.Outside, W.AtExecute(j), []);
    p' := Line(a, W.Consume(0, None));
  }

  /** Every history put with an undeclared tag can be answered with 0 and dropped. */
  lemma AnsweredAndDropped(j: Job) returns (p: State)
    requires HistoryBit(j.tag) && !Legal(j.tag)
    ensures Reachable(p) && Looks(p, Idle, W.Outside, W.AtUngaugeElements(j), [])
    ensures p.log.succeeded == [j] && p.workers[0].log.dropped == [j]
  {
    p := Begin();
    p := Arrive(p, j);
    p := Count(p, j);
    p := Succeed(p, j);
    p := Look(p, j);
    p := Take(p, j);
    p := Drop(p, j);
    assert Initial(Small()) by {
      assert Small().workers[0] == W.Init(1, |Small().handlers|, 1);
      assert [Idle] == seq(1, _ => Idle);
    }
    var acts: seq<Action> :| Run(Small(), acts) == Some(p);
  }

  /** The archive holds what succeeded. */
  ghost predicate Archives(p: State, j: Job) {
    Sum(p.workers, Archive(j)) == S.Times(p.log.succeeded, j) + Sum(p.workers, Leaving(j))
  }

  lemma DroppedBreaksArchive(p: State, j: Job)
    requires Looks(p, Idle, W.Outside, W.AtUngaugeElements(j), []) && p.log.succeeded == [j]
    ensures !Archives(p, j)
  {
    hide Prefix;
    var s := p.workers[0];
    SumZero(s.cons, S.InFlight(j));
    SumZero(s.subs, S.Returning(j));
    SumZero(s.log.stored, S.Is(j));
    SumZero(s.queue, S.Is(j));
    SumZero(p.workers, Archive(j));
    SumZero(p.workers, Leaving(j));
    SumPush([], j, S.Is(j));
    SumZero([], S.Is(j));
    assert [] + [j] == [j];
  }

  /** For a history put the archive equation holds in every reachable state iff its tag is one of
      the declared ones. */
  lemma ArchiveEquationIff(j: Job)
    requires HistoryBit(j.tag)
    ensures (forall p :: Reachable(p) ==> Archives(p, j)) <==> Legal(j.tag)
  {
    if Legal(j.tag) {
      forall p | Reachable(p) ensures Archives(p, j) { ArchiveIsWhatSucceeded(p, j); }
    } else {
      var p := AnsweredAndDropped(j);
      DroppedBreaksArchive(p, j);
    }
  }
}
