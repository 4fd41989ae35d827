/** What every interleaving of the archiving worker keeps, spurious wakeups included. */
module WorkerSafety {
  import opened Basics
  import opened Folds
  import opened DataWorker

  // ---------------------------------------------------------------- weights

  ghost function Pushing(p: Submitter): int { if p.AtPush? then 1 else 0 }
  ghost function Decrementing(p: Consumer): int { if p.AtDecrement? then 1 else 0 }

  ghost function Is(j: Job): Job -> int {
    (x: Job) => if x == j then 1 else 0
  }

  /** How often job j occurs in a log. */
  ghost function Times(log: seq<Job>, j: Job): int {
    Sum(log, Is(j))
  }

  /** Is this submitter bringing job j, neither pushed nor returned as rejected yet? */
  ghost function Pending(j: Job): Submitter -> int {
    (p: Submitter) =>
      if p.Outside? || p.AtNotify? || p.AtGaugeElements? || p.AtGaugeBytes? then 0
      else if p.job == j then 1 else 0
  }

  /** Has this submitter pushed job j without having returned yet? */
  ghost function Returning(j: Job): Submitter -> int {
    (p: Submitter) =>
      if (p.AtNotify? || p.AtGaugeElements? || p.AtGaugeBytes?) && p.job == j then 1 else 0
  }

  /** Has this consumer popped job j without having executed it yet? */
  ghost function InFlight(j: Job): Consumer -> int {
    (p: Consumer) =>
      if (p.AtDecrement? || p.AtFree? || p.AtExecute?) && p.job == j then 1 else 0
  }

  ghost function UncountedElements(p: Submitter): int {
    if p.AtNotify? || p.AtGaugeElements? then Elements(p.job) else 0
  }

  ghost function CountedElements(p: Consumer): int {
    if p.AtDecrement? || p.AtFree? || p.AtExecute? || p.AtUngaugeElements?
    then Elements(p.job) else 0
  }

  ghost function UncountedBytes(p: Submitter): int {
    if p.AtNotify? || p.AtGaugeElements? || p.AtGaugeBytes? then Bytes(p.job) else 0
  }

  ghost function CountedBytes(p: Consumer): int {
    if p.AtDecrement? || p.AtFree? || p.AtExecute? || p.AtUngaugeElements? || p.AtUngaugeBytes?
    then Bytes(p.job) else 0
  }

  // ---------------------------------------------------------------- invariants

  predicate HoldsSubmit(p: Submitter) {
    p.AtCheck? || p.AtWait? || p.AtCount? || p.AtPush? || p.AtNotify?
  }

  predicate HoldsJob(p: Consumer) {
    p == AtLoop(true) || p.AtWork? || p.AtEmpty? || p.AtSleep? || p.AtRecheck? || p.AtPop?
  }

  /** A mutex belongs to exactly the thread whose line lies inside its critical section. */
  ghost predicate Owned<A>(table: seq<A>, lock: Option<nat>, holds: A -> bool) {
    && (forall i :: 0 <= i < |table| ==> (holds(table[i]) <==> lock == Some(i)))
    && (lock.Some? ==> lock.value < |table|)
  }

  ghost predicate MutualExclusion(s: State) {
    Owned(s.subs, s.submitLock, HoldsSubmit) && Owned(s.cons, s.jobLock, HoldsJob)
  }

  /** What a consumer knows at each line of its critical section. */
  ghost predicate ConsumerKnows(s: State, p: Consumer) {
    && (p == AtLoop(true) ==> !s.work)
    && (p.AtRecheck? ==> s.queue != [] || !s.work)
    && (p.AtPop? ==> s.queue != [])
    && !p.LockError?
  }

  ghost predicate ControlFlow(s: State) {
    && (s.work <==> s.control.Spawning? || s.control.Running?)
    && (forall k :: 0 <= k < |s.cons| ==> ConsumerKnows(s, s.cons[k]))
    && (s.control.Stopped? ==> forall k :: 0 <= k < |s.cons| ==> s.cons[k] == Exited)
    && (s.control.Spawning? ==>
          forall k :: s.control.next <= k < |s.cons| ==> s.cons[k] == Exited)
  }

  /** The number of jobs the counter stands for. */
  ghost function Occupancy(s: State): int {
    |s.queue| + Sum(s.subs, Pushing) + Sum(s.cons, Decrementing)
  }

  ghost predicate Counter(s: State) {
    s.inQueue == Occupancy(s) % U64
  }

  /** Jobs leave in the order they came, and every rejection is counted. */
  ghost predicate Fifo(s: State) {
    s.log.accepted == s.log.popped + s.queue && s.metrics.rejections == |s.log.rejected|
  }

  /** Every call for job j is accepted, rejected or still on its way. */
  ghost predicate CallsConserved(s: State, j: Job) {
    Times(s.log.called, j)
    == Times(s.log.accepted, j) + Times(s.log.rejected, j) + Sum(s.subs, Pending(j))
  }

  /** Every acceptance of job j has returned 0 or is about to. */
  ghost predicate ReturnsConserved(s: State, j: Job) {
    Times(s.log.accepted, j) == Times(s.log.returned, j) + Sum(s.subs, Returning(j))
  }

  /** Every popped copy of job j is stored, dropped or in flight, once. */
  ghost predicate JobsConserved(s: State, j: Job) {
    Times(s.log.popped, j)
    == Times(s.log.stored, j) + Times(s.log.dropped, j) + Sum(s.cons, InFlight(j))
  }

  ghost predicate JobAccounted(s: State, j: Job) {
    CallsConserved(s, j) && ReturnsConserved(s, j) && JobsConserved(s, j)
  }

  ghost predicate Conserved(s: State) {
    forall j :: JobAccounted(s, j)
  }

  ghost predicate TagsRespected(s: State) {
    && (forall j :: j in s.log.stored ==> Archived(j))
    && (forall j :: j in s.log.dropped ==> !Archived(j))
  }

  /** The queued-elements gauge, up to the jobs whose gauging is under way. */
  ghost predicate ElementsGauged(s: State) {
    s.metrics.elements + Sum(s.subs, UncountedElements)
    == Sum(s.queue, Elements) + Sum(s.cons, CountedElements)
  }

  ghost predicate BytesGauged(s: State) {
    s.metrics.bytes + Sum(s.subs, UncountedBytes)
    == Sum(s.queue, Bytes) + Sum(s.cons, CountedBytes)
  }

  ghost predicate Inv(s: State) {
    && MutualExclusion(s) && ControlFlow(s) && Counter(s) && Fifo(s)
    && Conserved(s) && TagsRespected(s) && ElementsGauged(s) && BytesGauged(s)
  }

  // ---------------------------------------------------------------- preservation, line by line

  lemma OwnedUpdate<A>(table: seq<A>, lock: Option<nat>, holds: A -> bool, i: nat, x: A)
    requires Owned(table, lock, holds) && i < |table|
    requires holds(x) ==> holds(table[i]) || lock.None?
    ensures Owned(table[i := x],
                  if holds(x) then Some(i) else if holds(table[i]) then None else lock, holds)
  {}

  /** Only submitter t, and a consumer it wakes, change their program counters. */
  lemma SubmitMoves(s: State, t: nat, wake: Option<nat>)
    requires t < |s.subs| && SubmitStep(s, t, wake).Some?
    ensures var s' := SubmitStep(s, t, wake).value;
            && |s'.subs| == |s.subs| && s'.subs == s.subs[t := s'.subs[t]]
            && (s'.cons == s.cons ||
                (s.subs[t].AtNotify? && wake.Some? && wake.value < |s.cons|
                 && s.cons[wake.value] == Sleeping && s'.cons == s.cons[wake.value := Relocking]))
  {}

  /** Only consumer k, and a submitter it wakes, change their program counters. */
  lemma ConsumeMoves(s: State, k: nat, wake: Option<nat>)
    requires k < |s.cons| && ConsumeStep(s, k, wake).Some?
    ensures var s' := ConsumeStep(s, k, wake).value;
            && |s'.cons| == |s.cons| && s'.cons == s.cons[k := s'.cons[k]]
            && (s'.subs == s.subs ||
                (s.cons[k].AtFree? && wake.Some? && wake.value < |s.subs|
                 && s.subs[wake.value].Waiting?
                 && s'.subs == s.subs[wake.value := Woken(s.subs[wake.value].job)]))
  {}

  /** A weight that sleeping and waking consumers share, after a line of submitter t. */
  lemma SubmitSums(s: State, t: nat, wake: Option<nat>, f: Submitter -> int, g: Consumer -> int)
    requires t < |s.subs| && SubmitStep(s, t, wake).Some? && g(Sleeping) == g(Relocking)
    ensures var s' := SubmitStep(s, t, wake).value;
            && |s'.subs| == |s.subs|
            && Sum(s'.subs, f) == Sum(s.subs, f) - f(s.subs[t]) + f(s'.subs[t])
            && Sum(s'.cons, g) == Sum(s.cons, g)
  {
    SubmitMoves(s, t, wake);
    SumUpdate(s.subs, t, SubmitStep(s, t, wake).value.subs[t], f);
    if SubmitStep(s, t, wake).value.cons != s.cons {
      SumUpdate(s.cons, wake.value, Relocking, g);
    }
  }

  /** A weight that waiting and woken submitters share, after a line of consumer k. */
  lemma ConsumeSums(s: State, k: nat, wake: Option<nat>, f: Submitter -> int, g: Consumer -> int)
    requires k < |s.cons| && ConsumeStep(s, k, wake).Some?
    requires forall j :: f(Waiting(j)) == f(Woken(j))
    ensures var s' := ConsumeStep(s, k, wake).value;
            && |s'.cons| == |s.cons|
            && Sum(s'.cons, g) == Sum(s.cons, g) - g(s.cons[k]) + g(s'.cons[k])
            && Sum(s'.subs, f) == Sum(s.subs, f)
  {
    ConsumeMoves(s, k, wake);
    SumUpdate(s.cons, k, ConsumeStep(s, k, wake).value.cons[k], g);
    if ConsumeStep(s, k, wake).value.subs != s.subs {
      SumUpdate(s.subs, wake.value, Woken(s.subs[wake.value].job), f);
    }
  }

  lemma MutualExclusionSubmit(s: State, t: nat, wake: Option<nat>)
    requires MutualExclusion(s) && t < |s.subs| && SubmitStep(s, t, wake).Some?
    ensures MutualExclusion(SubmitStep(s, t, wake).value)
  {
    SubmitMoves(s, t, wake);
    var s' := SubmitStep(s, t, wake).value;
    OwnedUpdate(s.subs, s.submitLock, HoldsSubmit, t, s'.subs[t]);
    if s'.cons != s.cons { OwnedUpdate(s.cons, s.jobLock, HoldsJob, wake.value, Relocking); }
    match s.subs[t]
    case AtNotify(_) =>
    case AtCheck(_) =>
    case _ =>
  }

  lemma MutualExclusionConsume(s: State, k: nat, wake: Option<nat>)
    requires MutualExclusion(s) && k < |s.cons| && ConsumerKnows(s, s.cons[k])
    requires ConsumeStep(s, k, wake).Some?
    ensures MutualExclusion(ConsumeStep(s, k, wake).value)
  {
    ConsumeMoves(s, k, wake);
    var s' := ConsumeStep(s, k, wake).value;
    OwnedUpdate(s.cons, s.jobLock, HoldsJob, k, s'.cons[k]);
    if s'.subs != s.subs {
      OwnedUpdate(s.subs, s.submitLock, HoldsSubmit, wake.value, s'.subs[wake.value]);
    }
  }

  lemma ControlFlowSubmit(s: State, t: nat, wake: Option<nat>)
    requires ControlFlow(s) && t < |s.subs| && SubmitStep(s, t, wake).Some?
    ensures ControlFlow(SubmitStep(s, t, wake).value)
  {
    SubmitMoves(s, t, wake);
  }

  lemma ControlFlowConsume(s: State, k: nat, wake: Option<nat>)
    requires MutualExclusion(s) && ControlFlow(s) && k < |s.cons|
    requires ConsumeStep(s, k, wake).Some?
    ensures ControlFlow(ConsumeStep(s, k, wake).value)
  {
    ConsumeMoves(s, k, wake);
  }

  /** Only the increment makes the occupancy grow. */
  lemma OccupancySubmit(s: State, t: nat, wake: Option<nat>)
    requires t < |s.subs| && SubmitStep(s, t, wake).Some?
    ensures Occupancy(SubmitStep(s, t, wake).value)
            == Occupancy(s) + (if s.subs[t].AtCount? then 1 else 0)
  {
    SubmitSums(s, t, wake, Pushing, Decrementing);
    match s.subs[t]
    case AtCount(_, _) =>
    case AtPush(_) =>
    case _ =>
  }

  /** Only the decrement makes it shrink. */
  lemma OccupancyConsume(s: State, k: nat, wake: Option<nat>)
    requires k < |s.cons| && ConsumeStep(s, k, wake).Some?
    ensures Occupancy(ConsumeStep(s, k, wake).value)
            == Occupancy(s) - (if s.cons[k].AtDecrement? then 1 else 0)
  {
    ConsumeSums(s, k, wake, Pushing, Decrementing);
    match s.cons[k]
    case AtDecrement(_) =>
    case AtPop =>
    case _ =>
  }

  lemma Wraps(x: int)
    ensures (x % U64 + 1) % U64 == (x + 1) % U64
    ensures (x % U64 - 1) % U64 == (x - 1) % U64
  {
    var q, r := x / U64, x % U64;
    assert x + 1 == q * U64 + (r + 1) && x - 1 == q * U64 + (r - 1);
  }

  lemma CounterSubmit(s: State, t: nat, wake: Option<nat>)
    requires Counter(s) && t < |s.subs| && SubmitStep(s, t, wake).Some?
    ensures Counter(SubmitStep(s, t, wake).value)
  {
    OccupancySubmit(s, t, wake);
    Wraps(Occupancy(s));
  }

  lemma CounterConsume(s: State, k: nat, wake: Option<nat>)
    requires Counter(s) && k < |s.cons| && ConsumeStep(s, k, wake).Some?
    ensures Counter(ConsumeStep(s, k, wake).value)
  {
    OccupancyConsume(s, k, wake);
    Wraps(Occupancy(s));
  }

  lemma FifoSubmit(s: State, t: nat, wake: Option<nat>)
    requires Fifo(s) && t < |s.subs| && SubmitStep(s, t, wake).Some?
    ensures Fifo(SubmitStep(s, t, wake).value)
  {
    match s.subs[t]
    case AtPush(_) =>
    case _ =>
  }

  lemma FifoConsume(s: State, k: nat, wake: Option<nat>)
    requires Fifo(s) && k < |s.cons| && ConsumeStep(s, k, wake).Some?
    ensures Fifo(ConsumeStep(s, k, wake).value)
  {
    match s.cons[k]
    case AtPop =>
    case _ =>
  }

  lemma CallsSubmit(s: State, t: nat, wake: Option<nat>, j: Job)
    requires CallsConserved(s, j) && t < |s.subs| && SubmitStep(s, t, wake).Some?
    ensures CallsConserved(SubmitStep(s, t, wake).value, j)
  {
    hide Prefix, WakesConsumer;
    SubmitMoves(s, t, wake);
    SumUpdate(s.subs, t, SubmitStep(s, t, wake).value.subs[t], Pending(j));
    match s.subs[t]
    case AtPush(job) => SumPush(s.log.accepted, job, Is(j));
    case AtReject(job) => SumPush(s.log.rejected, job, Is(j));
    case _ =>
  }

  lemma ReturnsSubmit(s: State, t: nat, wake: Option<nat>, j: Job)
    requires ReturnsConserved(s, j) && t < |s.subs| && SubmitStep(s, t, wake).Some?
    ensures ReturnsConserved(SubmitStep(s, t, wake).value, j)
  {
    hide Prefix, WakesConsumer;
    SubmitMoves(s, t, wake);
    SumUpdate(s.subs, t, SubmitStep(s, t, wake).value.subs[t], Returning(j));
    match s.subs[t]
    case AtPush(job) => SumPush(s.log.accepted, job, Is(j));
    case AtGaugeBytes(job) => SumPush(s.log.returned, job, Is(j));
    case AtNotify(_) =>
    case AtGaugeElements(_) =>
    case _ =>
  }

  lemma JobsSubmit(s: State, t: nat, wake: Option<nat>, j: Job)
    requires JobsConserved(s, j) && t < |s.subs| && SubmitStep(s, t, wake).Some?
    ensures JobsConserved(SubmitStep(s, t, wake).value, j)
  {
    SubmitSums(s, t, wake, Pushing, InFlight(j));
  }

  lemma AccountedSubmit(s: State, t: nat, wake: Option<nat>, j: Job)
    requires JobAccounted(s, j) && t < |s.subs| && SubmitStep(s, t, wake).Some?
    ensures JobAccounted(SubmitStep(s, t, wake).value, j)
  {
    CallsSubmit(s, t, wake, j);
    ReturnsSubmit(s, t, wake, j);
    JobsSubmit(s, t, wake, j);
  }

  lemma CallsConsume(s: State, k: nat, wake: Option<nat>, j: Job)
    requires CallsConserved(s, j) && ReturnsConserved(s, j)
    requires k < |s.cons| && ConsumeStep(s, k, wake).Some?
    ensures CallsConserved(ConsumeStep(s, k, wake).value, j)
    ensures ReturnsConserved(ConsumeStep(s, k, wake).value, j)
  {
    ConsumeSums(s, k, wake, Pending(j), Decrementing);
    ConsumeSums(s, k, wake, Returning(j), Decrementing);
  }

  lemma JobsConsume(s: State, k: nat, wake: Option<nat>, j: Job)
    requires JobsConserved(s, j) && k < |s.cons| && ConsumeStep(s, k, wake).Some?
    ensures JobsConserved(ConsumeStep(s, k, wake).value, j)
  {
    ConsumeSums(s, k, wake, Pushing, InFlight(j));
    match s.cons[k]
    case AtPop => SumPush(s.log.popped, s.queue[0], Is(j));
    case AtDecrement(_) =>
    case AtFree(_) =>
    case AtExecute(job) =>
      if Archived(job) { SumPush(s.log.stored, job, Is(j)); }
      else { SumPush(s.log.dropped, job, Is(j)); }
    case _ =>
  }

  lemma AccountedConsume(s: State, k: nat, wake: Option<nat>, j: Job)
    requires JobAccounted(s, j) && k < |s.cons| && ConsumeStep(s, k, wake).Some?
    ensures JobAccounted(ConsumeStep(s, k, wake).value, j)
  {
    CallsConsume(s, k, wake, j);
    JobsConsume(s, k, wake, j);
  }

  lemma TagsSubmit(s: State, t: nat, wake: Option<nat>)
    requires TagsRespected(s) && t < |s.subs| && SubmitStep(s, t, wake).Some?
    ensures TagsRespected(SubmitStep(s, t, wake).value)
  {}

  lemma TagsConsume(s: State, k: nat, wake: Option<nat>)
    requires TagsRespected(s) && k < |s.cons| && ConsumeStep(s, k, wake).Some?
    ensures TagsRespected(ConsumeStep(s, k, wake).value)
  {
    match s.cons[k]
    case AtExecute(_) =>
    case _ =>
  }

  lemma ElementsSubmit(s: State, t: nat, wake: Option<nat>)
    requires ElementsGauged(s) && t < |s.subs| && SubmitStep(s, t, wake).Some?
    ensures ElementsGauged(SubmitStep(s, t, wake).value)
  {
    SubmitSums(s, t, wake, UncountedElements, CountedElements);
    match s.subs[t]
    case AtPush(job) => SumPush(s.queue, job, Elements);
    case AtNotify(_) =>
    case AtGaugeElements(_) =>
    case AtGaugeBytes(_) =>
    case _ =>
  }

  lemma ElementsConsume(s: State, k: nat, wake: Option<nat>)
    requires ElementsGauged(s) && k < |s.cons| && ConsumeStep(s, k, wake).Some?
    ensures ElementsGauged(ConsumeStep(s, k, wake).value)
  {
    ConsumeSums(s, k, wake, UncountedElements, CountedElements);
    match s.cons[k]
    case AtPop => SumPop(s.queue, Elements);
    case AtDecrement(_) =>
    case AtFree(_) =>
    case AtExecute(_) =>
    case AtUngaugeElements(_) =>
    case AtUngaugeBytes(_) =>
    case _ =>
  }

  lemma BytesSubmit(s: State, t: nat, wake: Option<nat>)
    requires BytesGauged(s) && t < |s.subs| && SubmitStep(s, t, wake).Some?
    ensures BytesGauged(SubmitStep(s, t, wake).value)
  {
    SubmitSums(s, t, wake, UncountedBytes, CountedBytes);
    match s.subs[t]
    case AtPush(job) => SumPush(s.queue, job, Bytes);
    case AtNotify(_) =>
    case AtGaugeElements(_) =>
    case AtGaugeBytes(_) =>
    case _ =>
  }

  lemma BytesConsume(s: State, k: nat, wake: Option<nat>)
    requires BytesGauged(s) && k < |s.cons| && ConsumeStep(s, k, wake).Some?
    ensures BytesGauged(ConsumeStep(s, k, wake).value)
  {
    ConsumeSums(s, k, wake, UncountedBytes, CountedBytes);
    match s.cons[k]
    case AtPop => SumPop(s.queue, Bytes);
    case AtDecrement(_) =>
    case AtFree(_) =>
    case AtExecute(_) =>
    case AtUngaugeElements(_) =>
    case AtUngaugeBytes(_) =>
    case _ =>
  }

  lemma InvSubmit(s: State, t: nat, wake: Option<nat>)
    requires Inv(s) && t < |s.subs| && SubmitStep(s, t, wake).Some?
    ensures Inv(SubmitStep(s, t, wake).value)
  {
    MutualExclusionSubmit(s, t, wake);
    ControlFlowSubmit(s, t, wake);
    CounterSubmit(s, t, wake);
    FifoSubmit(s, t, wake);
    forall j ensures JobAccounted(SubmitStep(s, t, wake).value, j) {
      AccountedSubmit(s, t, wake, j);
    }
    TagsSubmit(s, t, wake);
    ElementsSubmit(s, t, wake);
    BytesSubmit(s, t, wake);
  }

  lemma InvConsume(s: State, k: nat, wake: Option<nat>)
    requires Inv(s) && k < |s.cons| && ConsumeStep(s, k, wake).Some?
    ensures Inv(ConsumeStep(s, k, wake).value)
  {
    MutualExclusionConsume(s, k, wake);
    ControlFlowConsume(s, k, wake);
    CounterConsume(s, k, wake);
    FifoConsume(s, k, wake);
    forall j ensures JobAccounted(ConsumeStep(s, k, wake).value, j) {
      AccountedConsume(s, k, wake, j);
    }
    TagsConsume(s, k, wake);
    ElementsConsume(s, k, wake);
    BytesConsume(s, k, wake);
  }

  // ---------------------------------------------------------------- the remaining actions

  predicate Remaining(a: Action) {
    !a.Submit? && !a.Consume?
  }

  /** They move a thread between lines of equal weight, or wake all sleepers. */
  lemma RemainingSums(s: State, a: Action, f: Submitter -> int, g: Consumer -> int)
    requires Remaining(a) && Step(s, a).Some? && ControlFlow(s)
    requires forall j :: f(Outside) == f(AtLock(j)) && f(Waiting(j)) == f(Woken(j)) == f(Expired(j))
    requires g(Sleeping) == g(Relocking) && g(Exited) == g(AtLoop(false))
    ensures Sum(Step(s, a).value.subs, f) == Sum(s.subs, f)
    ensures Sum(Step(s, a).value.cons, g) == Sum(s.cons, g)
  {
    SumSame(Step(s, a).value.subs, s.subs, f);
    SumSame(Step(s, a).value.cons, s.cons, g);
  }

  lemma MutualExclusionRemaining(s: State, a: Action)
    requires Remaining(a) && MutualExclusion(s) && ControlFlow(s) && Step(s, a).Some?
    ensures MutualExclusion(Step(s, a).value)
  {
    match a
    case NotifyAll =>
    case Spawn =>
    case SpuriousConsume(_) =>
    case _ =>
  }

  lemma ControlFlowRemaining(s: State, a: Action)
    requires Remaining(a) && ControlFlow(s) && Step(s, a).Some?
    ensures ControlFlow(Step(s, a).value)
  {}

  lemma AccountedCall(s: State, t: nat, job: Job, j: Job)
    requires JobAccounted(s, j) && Step(s, Call(t, job)).Some?
    ensures JobAccounted(Step(s, Call(t, job)).value, j)
  {
    SumUpdate(s.subs, t, AtLock(job), Pending(j));
    SumUpdate(s.subs, t, AtLock(job), Returning(j));
    SumPush(s.log.called, job, Is(j));
  }

  lemma CallsRemaining(s: State, a: Action, j: Job)
    requires Remaining(a) && !a.Call? && Step(s, a).Some?
    requires CallsConserved(s, j) && ReturnsConserved(s, j)
    ensures CallsConserved(Step(s, a).value, j) && ReturnsConserved(Step(s, a).value, j)
  {
    SumSame(Step(s, a).value.subs, s.subs, Pending(j));
    SumSame(Step(s, a).value.subs, s.subs, Returning(j));
  }

  lemma AccountedRemaining(s: State, a: Action, j: Job)
    requires Remaining(a) && !a.Call? && JobAccounted(s, j) && ControlFlow(s) && Step(s, a).Some?
    ensures JobAccounted(Step(s, a).value, j)
  {
    hide CallsConserved, ReturnsConserved, SubmitStep, ConsumeStep, Prefix;
    CallsRemaining(s, a, j);
    SumSame(Step(s, a).value.cons, s.cons, InFlight(j));
  }

  lemma CounterRemaining(s: State, a: Action)
    requires Remaining(a) && Counter(s) && ControlFlow(s) && Step(s, a).Some?
    ensures Counter(Step(s, a).value) && Occupancy(Step(s, a).value) == Occupancy(s)
  {
    RemainingSums(s, a, Pushing, Decrementing);
  }

  lemma ElementsRemaining(s: State, a: Action)
    requires Remaining(a) && ElementsGauged(s) && ControlFlow(s) && Step(s, a).Some?
    ensures ElementsGauged(Step(s, a).value)
  {
    RemainingSums(s, a, UncountedElements, CountedElements);
  }

  lemma BytesRemaining(s: State, a: Action)
    requires Remaining(a) && BytesGauged(s) && ControlFlow(s) && Step(s, a).Some?
    ensures BytesGauged(Step(s, a).value)
  {
    RemainingSums(s, a, UncountedBytes, CountedBytes);
  }

  lemma LogsRemaining(s: State, a: Action)
    requires Remaining(a) && Fifo(s) && TagsRespected(s) && Step(s, a).Some?
    ensures Fifo(Step(s, a).value) && TagsRespected(Step(s, a).value)
  {}

  lemma InvRemaining(s: State, a: Action)
    requires Remaining(a) && Inv(s) && Step(s, a).Some?
    ensures Inv(Step(s, a).value)
  {
    MutualExclusionRemaining(s, a);
    ControlFlowRemaining(s, a);
    CounterRemaining(s, a);
    ElementsRemaining(s, a);
    BytesRemaining(s, a);
    LogsRemaining(s, a);
    forall j ensures JobAccounted(Step(s, a).value, j) {
      if a.Call? { AccountedCall(s, a.t, a.job, j); } else { AccountedRemaining(s, a, j); }
    }
  }

  // ---------------------------------------------------------------- every run

  lemma InvInit(maxElement: nat, submitters: nat, consumers: nat)
    ensures Inv(Init(maxElement, submitters, consumers))
  {
    var s := Init(maxElement, submitters, consumers);
    SumZero(s.subs, Pushing); SumZero(s.cons, Decrementing);
    SumZero(s.subs, UncountedElements); SumZero(s.cons, CountedElements);
    SumZero(s.subs, UncountedBytes); SumZero(s.cons, CountedBytes);
    forall j ensures JobAccounted(s, j) {
      SumZero(s.subs, Pending(j)); SumZero(s.subs, Returning(j)); SumZero(s.cons, InFlight(j));
    }
  }

  lemma InvStep(s: State, a: Action)
    requires Inv(s) && Step(s, a).Some?
    ensures Inv(Step(s, a).value)
  {
    match a
    case Submit(t, wake) => InvSubmit(s, t, wake);
    case Consume(k, wake) => InvConsume(s, k, wake);
    case _ => InvRemaining(s, a);
  }

  lemma {:induction false} InvRun(s: State, acts: seq<Action>)
    requires Inv(s) && Run(s, acts).Some?
    ensures Inv(Run(s, acts).value)
  {
    if acts != [] {
      InvRun(s, acts[..|acts| - 1]);
      InvStep(Run(s, acts[..|acts| - 1]).value, acts[|acts| - 1]);
    }
  }

  /** A state some interleaving reaches. */
  ghost predicate Reachable(s: State) {
    exists maxElement: nat, submitters: nat, consumers: nat, acts: seq<Action> ::
      Run(Init(maxElement, submitters, consumers), acts) == Some(s)
  }

  lemma ReachableInv(s: State)
    requires Reachable(s)
    ensures Inv(s)
  {
    var maxElement: nat, submitters: nat, consumers: nat, acts: seq<Action> :|
      Run(Init(maxElement, submitters, consumers), acts) == Some(s);
    InvInit(maxElement, submitters, consumers);
    InvRun(Init(maxElement, submitters, consumers), acts);
  }

  // ---------------------------------------------------------------- main results

  /** The critical sections exclude each other, no consumer locks a mutex it owns (line 61 is
      reached by `continue` with the lock still held) and none takes the front of an empty queue. */
  lemma CriticalSections(s: State)
    requires Reachable(s)
    ensures forall t, u | 0 <= t < |s.subs| && 0 <= u < |s.subs| ::
              HoldsSubmit(s.subs[t]) && HoldsSubmit(s.subs[u]) ==> t == u
    ensures forall k, l | 0 <= k < |s.cons| && 0 <= l < |s.cons| ::
              HoldsJob(s.cons[k]) && HoldsJob(s.cons[l]) ==> k == l
    ensures forall k :: 0 <= k < |s.cons| ==>
              !s.cons[k].LockError? && (s.cons[k].AtPop? ==> s.queue != [])
  {
    ReachableInv(s);
  }

  /** Every call for job j ends in exactly one place, and jobs leave in the order they came. */
  lemma EveryJobAccounted(s: State, j: Job)
    requires Reachable(s)
    ensures s.log.accepted == s.log.popped + s.queue
    ensures Times(s.log.called, j)
            == Times(s.log.stored, j) + Times(s.log.dropped, j) + Sum(s.cons, InFlight(j))
               + Times(s.queue, j) + Times(s.log.rejected, j) + Sum(s.subs, Pending(j))
    ensures Times(s.log.called, j) <= 1 ==>
              Times(s.log.stored, j) + Times(s.log.dropped, j) + Times(s.queue, j)
              + Times(s.log.rejected, j) <= 1
    ensures s.metrics.rejections == |s.log.rejected|
  {
    ReachableInv(s);
    assert JobAccounted(s, j);
    SumConcat(s.log.popped, s.queue, Is(j));
    CountBounds(s.cons, InFlight(j));
    CountBounds(s.subs, Pending(j));
  }

  /** Once stop() has joined its threads, every accepted job was executed or is still queued. */
  lemma AfterStop(s: State, j: Job)
    requires Reachable(s) && s.control.Stopped?
    ensures Times(s.log.accepted, j)
            == Times(s.log.stored, j) + Times(s.log.dropped, j) + Times(s.queue, j)
  {
    ReachableInv(s);
    assert JobAccounted(s, j);
    SumConcat(s.log.popped, s.queue, Is(j));
    SumZero(s.cons, InFlight(j));
  }

  /** What a job weighs in the gauges: one element, and its data with its key in 32 bits, if its tag
      is history or live and history. */
  ghost function Element(j: Job): int { if j.tag == 1 || j.tag == 3 then 1 else 0 }

  ghost function Memory(j: Job): int {
    if j.tag == 1 || j.tag == 3 then (j.size + |j.key|) % 0x1_0000_0000 else 0
  }

  lemma AddModulo(a: nat, b: nat)
    ensures (a % U32 + b % U32) % U32 == (a + b) % U32
  {
    assert a == U32 * (a / U32) + a % U32;
    assert b == U32 * (b / U32) + b % U32;
  }

  lemma GaugeWeights(jobs: seq<Job>)
    ensures Sum(jobs, Elements) == Sum(jobs, Element) && Sum(jobs, Bytes) == Sum(jobs, Memory)
  {
    forall i | 0 <= i < |jobs| ensures Bytes(jobs[i]) == Memory(jobs[i]) {
      AddModulo(jobs[i].size, |jobs[i].key|);
    }
    SumAtMost(jobs, Elements, Element); SumAtMost(jobs, Element, Elements);
    SumAtMost(jobs, Bytes, Memory); SumAtMost(jobs, Memory, Bytes);
  }

  /** Both gauges describe the queue whenever no job is between two lines of code; in between,
      the elements gauge is off by the jobs caught there and may even be negative. */
  lemma GaugesFollowQueue(s: State)
    requires Reachable(s)
    ensures s.metrics.elements
            == Sum(s.queue, Elements) + Sum(s.cons, CountedElements) - Sum(s.subs, UncountedElements)
    ensures s.metrics.bytes
            == Sum(s.queue, Bytes) + Sum(s.cons, CountedBytes) - Sum(s.subs, UncountedBytes)
    ensures (forall t :: 0 <= t < |s.subs| ==> s.subs[t] == Outside)
            && (forall k :: 0 <= k < |s.cons| ==> s.cons[k] == Exited || s.cons[k] == Sleeping)
            ==> s.metrics.elements == Sum(s.queue, Element)
                && s.metrics.bytes == Sum(s.queue, Memory) && s.inQueue == |s.queue| % U64
  {
    hide Reachable, Prefix, Elements, Bytes, Element, Memory, MutualExclusion, ControlFlow, Fifo, Conserved, TagsRespected;
    ReachableInv(s);
    if && (forall t :: 0 <= t < |s.subs| ==> s.subs[t] == Outside)
       && (forall k :: 0 <= k < |s.cons| ==> s.cons[k] == Exited || s.cons[k] == Sleeping) {
      SumZero(s.subs, UncountedElements); SumZero(s.cons, CountedElements);
      SumZero(s.subs, UncountedBytes); SumZero(s.cons, CountedBytes);
      SumZero(s.subs, Pushing); SumZero(s.cons, Decrementing);
      GaugeWeights(s.queue);
    }
  }

  // ---------------------------------------------------------------- initialised again

  /** The loop of deinit, which pops while the queue is empty; undefined records such a pop. */
  method PopWhileEmpty(queue: seq<Job>) returns (left: seq<Job>, undefined: bool)
    ensures left == queue && (undefined <==> queue == [])
  {
    left, undefined := queue, false;
    while left == [] && !undefined
      invariant left == queue && (undefined ==> queue == [])
      decreases !undefined
    {
      undefined := true;
    }
  }

  /** deinit enters that loop only when the queue is not empty, so it takes no job out. */
  method DrainQueue(queue: seq<Job>) returns (left: seq<Job>, undefined: bool)
    ensures left == queue && !undefined
  {
    left, undefined := queue, false;
    if queue != [] {
      left, undefined := PopWhileEmpty(queue);
    }
  }

  /** A worker after deinit and init. */
  function Reinit(s: State): State {
    s.(inQueue := 0)
  }

  method Reinitialise(s: State) returns (s': State)
    ensures s' == Reinit(s)
  {
    var left, undefined := DrainQueue(s.queue);
    s' := s.(queue := left);
    s' := s'.(inQueue := 0);
  }

  /** A worker that is initialised again counts its queue correctly iff it was left empty. */
  lemma ReinitCounts(s: State)
    requires Reachable(s) && s.control.Stopped? && |s.queue| < U64
    requires forall t :: 0 <= t < |s.subs| ==> s.subs[t] == Outside
    ensures Counter(Reinit(s)) <==> s.queue == []
  {
    ReachableInv(s);
    SumZero(s.subs, Pushing); SumZero(s.cons, Decrementing);
  }
}
