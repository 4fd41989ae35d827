/** Each worker of the pipeline, seen alone, makes a run of its own; so what holds of every run of a
lone worker holds of every worker of the pipeline. */
module PipelineWorkers {
  import opened Basics
  import opened Folds
  import opened Pipeline
  import W = DataWorker
  import S = WorkerSafety
  import B = WorkerBound

  /** What a step of the pipeline does to worker w: nothing, or one action of its own. */
  function Seen(p: State, a: Action, w: nat): Option<W.Action> {
    match a
    case Enter(t) =>
      if t < |p.handlers| && p.handlers[t].AtSubmit? && p.handlers[t].w == w
      then Some(W.Call(t, p.handlers[t].put)) else None
    case Worker(v, act) => if v == w then Some(act) else None
    case _ => None
  }

  lemma StepSeen(p: State, a: Action, w: nat)
    requires Step(p, a).Some? && w < |p.workers|
    ensures var p' := Step(p, a).value;
            && |p'.workers| == |p.workers|
            && match Seen(p, a, w)
               case None => p'.workers[w] == p.workers[w]
               case Some(act) => W.Step(p.workers[w], act) == Some(p'.workers[w])
  {
    hide W.Step;
  }

  /** No worker has a spurious wakeup of a submitter. */
  ghost predicate Quiet(acts: seq<Action>) {
    forall i :: 0 <= i < |acts| ==> !(acts[i].Worker? && acts[i].act.SpuriousPush?)
  }

  lemma {:induction false} Project(p: State, acts: seq<Action>, w: nat) returns (own: seq<W.Action>)
    requires Run(p, acts).Some? && w < |p.workers|
    ensures |Run(p, acts).value.workers| == |p.workers|
    ensures W.Run(p.workers[w], own) == Some(Run(p, acts).value.workers[w])
    ensures Quiet(acts) ==> B.NoSpuriousPush(own)
  {
    hide Step, W.Step;
    if acts == [] { return []; }
    var n := |acts| - 1;
    var q := Run(p, acts[..n]).value;
    own := Project(p, acts[..n], w);
    StepSeen(q, acts[n], w);
    if Seen(q, acts[n], w).Some? {
      var act := Seen(q, acts[n], w).value;
      assert (own + [act])[..|own|] == own;
      own := own + [act];
    }
  }

  /** In every interleaving of the pipeline without spurious wakeups of submitters every worker's
      counter, its consumers between decrement and notify and its woken submitters stay under its
      ceiling, and its counter is exact. */
  lemma EveryQueueBounded(p: State, acts: seq<Action>, w: nat, maxElement: nat, consumers: nat)
    requires w < |p.workers| && p.workers[w] == W.Init(maxElement, |p.handlers|, consumers)
    requires 1 <= |p.handlers| && maxElement + consumers + |p.handlers| - 1 < U64
    requires Quiet(acts) && Run(p, acts).Some?
    ensures var p' := Run(p, acts).value;
            w < |p'.workers| &&
            var s := p'.workers[w];
            && s.inQueue + Sum(s.cons, B.Freeing) + Sum(s.subs, B.WokenUp)
               <= maxElement + consumers + |p.handlers| - 1
            && s.inQueue == |s.queue| + Sum(s.subs, S.Pushing) + Sum(s.cons, S.Decrementing)
  {
    var own := Project(p, acts, w);
    B.QueueBound(maxElement, |p.handlers|, consumers, own);
  }
}
