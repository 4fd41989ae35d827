/** How full the worker's queue can get.

submitJobInfo waits at most once when the queue is full and does not look at the counter again
after being notified, so the counter may pass max_element. The exact ceiling is
max_element + consumers + submitters - 1: no run without spurious wakeups passes it, and for
every choice of the three numbers some run reaches it. */
module WorkerBound {
  import opened Basics
  import opened Folds
  import opened DataWorker
  import opened WorkerSafety

  /** Submitters that were notified and will count their job without another check. */
  ghost function WokenUp(p: Submitter): int {
    if p.Woken? || (p.AtCount? && p.woken) then 1 else 0
  }

  /** Consumers that made room and have not announced it yet. */
  ghost function Freeing(p: Consumer): int { if p.AtFree? then 1 else 0 }

  /** Jobs counted, room announced to nobody yet, and room promised to a woken submitter. */
  ghost function Pressure(s: State): int {
    Occupancy(s) + Sum(s.cons, Freeing) + Sum(s.subs, WokenUp)
  }

  ghost function Ceiling(s: State): int {
    s.maxElement + |s.cons| + |s.subs| - 1
  }

  ghost predicate Admitted(s: State) {
    forall t :: 0 <= t < |s.subs| && s.subs[t].AtCount? && !s.subs[t].woken
                ==> Occupancy(s) < s.maxElement
  }

  ghost predicate Bounded(s: State) {
    Pressure(s) <= Ceiling(s) < U64 && Admitted(s)
  }

  lemma OccupancyNatural(s: State)
    ensures 0 <= Occupancy(s)
  {
    CountBounds(s.subs, Pushing);
    CountBounds(s.cons, Decrementing);
  }

  /** Under the ceiling the 64-bit counter is the occupancy itself. */
  lemma CounterExact(s: State)
    requires Counter(s) && Bounded(s)
    ensures s.inQueue == Occupancy(s)
  {
    OccupancyNatural(s);
    CountBounds(s.cons, Freeing);
    CountBounds(s.subs, WokenUp);
  }

  lemma AdmittedSubmit(s: State, t: nat, wake: Option<nat>)
    requires Inv(s) && Bounded(s) && t < |s.subs| && SubmitStep(s, t, wake).Some?
    ensures Admitted(SubmitStep(s, t, wake).value)
  {
    hide ControlFlow, Fifo, Conserved, TagsRespected, ElementsGauged, BytesGauged;
    OccupancySubmit(s, t, wake);
    SubmitMoves(s, t, wake);
    CounterExact(s);
  }

  lemma PressureSubmit(s: State, t: nat, wake: Option<nat>)
    requires Inv(s) && Bounded(s) && t < |s.subs| && SubmitStep(s, t, wake).Some?
    ensures Pressure(SubmitStep(s, t, wake).value) <= Ceiling(s)
  {
    hide ControlFlow, Counter, Fifo, Conserved, TagsRespected, ElementsGauged, BytesGauged;
    OccupancySubmit(s, t, wake);
    SubmitSums(s, t, wake, WokenUp, Freeing);
    var s' := SubmitStep(s, t, wake).value;
    match s.subs[t]
    case AtCount(_, woken) =>
      if !woken {
        CountBelow(s'.subs, t, WokenUp);
        CountBounds(s'.cons, Freeing);
      }
    case _ =>
  }

  lemma BoundedSubmit(s: State, t: nat, wake: Option<nat>)
    requires Inv(s) && Bounded(s) && t < |s.subs| && SubmitStep(s, t, wake).Some?
    ensures Bounded(SubmitStep(s, t, wake).value)
  {
    AdmittedSubmit(s, t, wake);
    PressureSubmit(s, t, wake);
    SubmitMoves(s, t, wake);
  }

  lemma PressureConsume(s: State, k: nat, wake: Option<nat>)
    requires k < |s.cons| && ConsumeStep(s, k, wake).Some?
    ensures Pressure(ConsumeStep(s, k, wake).value) <= Pressure(s)
  {
    OccupancyConsume(s, k, wake);
    ConsumeMoves(s, k, wake);
    var s' := ConsumeStep(s, k, wake).value;
    SumUpdate(s.cons, k, s'.cons[k], Freeing);
    if s'.subs != s.subs { SumUpdate(s.subs, wake.value, s'.subs[wake.value], WokenUp); }
    match s.cons[k]
    case AtDecrement(_) =>
    case AtFree(_) =>
    case _ =>
  }

  lemma BoundedConsume(s: State, k: nat, wake: Option<nat>)
    requires Bounded(s) && k < |s.cons| && ConsumeStep(s, k, wake).Some?
    ensures Bounded(ConsumeStep(s, k, wake).value)
  {
    PressureConsume(s, k, wake);
    OccupancyConsume(s, k, wake);
    ConsumeMoves(s, k, wake);
  }

  lemma PressureRemaining(s: State, a: Action)
    requires Remaining(a) && !a.SpuriousPush? && Inv(s) && Step(s, a).Some?
    ensures Pressure(Step(s, a).value) == Pressure(s)
  {
    hide Counter, Fifo, Conserved, TagsRespected, ElementsGauged, BytesGauged, MutualExclusion, SubmitStep, ConsumeStep;
    CounterRemaining(s, a);
    SumSame(Step(s, a).value.subs, s.subs, WokenUp);
    SumSame(Step(s, a).value.cons, s.cons, Freeing);
  }

  lemma BoundedRemaining(s: State, a: Action)
    requires Remaining(a) && !a.SpuriousPush? && Inv(s) && Bounded(s) && Step(s, a).Some?
    ensures Bounded(Step(s, a).value)
  {
    CounterRemaining(s, a);
    PressureRemaining(s, a);
  }

  ghost predicate NoSpuriousPush(acts: seq<Action>) {
    forall i :: 0 <= i < |acts| ==> !acts[i].SpuriousPush?
  }

  lemma {:induction false} BoundedRun(s: State, acts: seq<Action>)
    requires Inv(s) && Bounded(s) && NoSpuriousPush(acts) && Run(s, acts).Some?
    ensures Bounded(Run(s, acts).value)
  {
    if acts != [] {
      var r, a := Run(s, acts[..|acts| - 1]).value, acts[|acts| - 1];
      InvRun(s, acts[..|acts| - 1]);
      BoundedRun(s, acts[..|acts| - 1]);
      match a
      case Submit(t, wake) => BoundedSubmit(r, t, wake);
      case Consume(k, wake) => BoundedConsume(r, k, wake);
      case _ => BoundedRemaining(r, a);
    }
  }

  /** The queue bound: in every interleaving without spurious wakeups the counter, the consumers
      between decrement and notify and the woken submitters together stay under the ceiling;
      the counter is exact, so the unsigned decrement never wraps. */
  lemma QueueBound(maxElement: nat, submitters: nat, consumers: nat, acts: seq<Action>)
    requires 1 <= submitters && maxElement + consumers + submitters - 1 < U64
    requires NoSpuriousPush(acts) && Run(Init(maxElement, submitters, consumers), acts).Some?
    ensures var s := Run(Init(maxElement, submitters, consumers), acts).value;
            && s.inQueue + Sum(s.cons, Freeing) + Sum(s.subs, WokenUp)
               <= maxElement + consumers + submitters - 1
            && s.inQueue == |s.queue| + Sum(s.subs, Pushing) + Sum(s.cons, Decrementing)
            && (forall k :: 0 <= k < |s.cons| && s.cons[k].AtDecrement? ==> 1 <= s.inQueue)
  {
    var s0 := Init(maxElement, submitters, consumers);
    InvInit(maxElement, submitters, consumers);
    SumZero(s0.subs, Pushing); SumZero(s0.cons, Decrementing);
    SumZero(s0.subs, WokenUp); SumZero(s0.cons, Freeing);
    BoundedRun(s0, acts);
    InvRun(s0, acts);
    SizesKept(s0, acts);
    var s := Run(s0, acts).value;
    CounterExact(s);
    forall k | 0 <= k < |s.cons| && s.cons[k].AtDecrement? ensures 1 <= s.inQueue {
      CountBounds(s.subs, Pushing);
      CountAbove(s.cons, k, Decrementing);
    }
  }

  lemma SizesStep(s: State, a: Action)
    requires Step(s, a).Some?
    ensures var s' := Step(s, a).value;
            |s'.subs| == |s.subs| && |s'.cons| == |s.cons| && s'.maxElement == s.maxElement
  {
    match a
    case Submit(t, wake) => SubmitMoves(s, t, wake);
    case Consume(k, wake) => ConsumeMoves(s, k, wake);
    case _ =>
  }

  /** No step changes the number of threads or max_element. */
  lemma {:induction false} SizesKept(s: State, acts: seq<Action>)
    requires Run(s, acts).Some?
    ensures var r := Run(s, acts).value;
            |r.subs| == |s.subs| && |r.cons| == |s.cons| && r.maxElement == s.maxElement
  {
    if acts != [] {
      SizesKept(s, acts[..|acts| - 1]);
      SizesStep(Run(s, acts[..|acts| - 1]).value, acts[|acts| - 1]);
    }
  }
}
