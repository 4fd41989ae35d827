/** The archiving worker of the metadata service: a bounded job queue shared by submitting
request threads and a group of consumer threads, with the gauges kept beside it.

Every thread is a program counter that names the next line it executes; the two mutexes, the
two condition variables, the atomic counter and the stop flag are fields of one state. A run
is any interleaving of single lines. `job_queue.push` is not covered by `mutex_job` in the
original, so a push and a front-and-pop are taken as atomic. */
module DataWorker {
  import opened Basics
  import opened Folds

  // ---------------------------------------------------------------- jobs and tags

  /** The storage tag as it travels: one byte, of which the low two bits are meaningful. */
  type Tag = x: int | 0 <= x < 256

  const UNDEFINED: Tag := 0
  const HISTORY: Tag := 1
  const LIVE: Tag := 2
  const LIVE_HISTORY: Tag := 3

  /** One storage job; id tells apart two puts with the same contents. */
  datatype Job = Job(id: nat, key: string, tag: Tag, size: nat)

  /** The case labels that make executeJob push the job and the collector gauge it. */
  predicate Archived(j: Job) {
    j.tag == HISTORY || j.tag == LIVE_HISTORY
  }

  /** What one job adds to the queued-elements gauge. */
  function Elements(j: Job): int {
    if Archived(j) then 1 else 0
  }

  /** What one job adds to the queued-memory gauge, in 32-bit arithmetic. */
  function Bytes(j: Job): int {
    if Archived(j) then (j.size % U32 + |j.key| % U32) % U32 else 0
  }

  // ---------------------------------------------------------------- program counters

  datatype Submitter =
    | Outside                        // not inside submitJobInfo
    | AtLock(job: Job)               // about to take mutex_submit
    | AtCheck(job: Job)              // about to compare the counter with max_element
    | AtWait(job: Job)               // found no room, about to wait and so release mutex_submit
    | Waiting(job: Job)              // inside push_condition.wait_for, mutex released
    | Woken(job: Job)                // notified, has to take mutex_submit again
    | Expired(job: Job)              // timed out, has to take mutex_submit again
    | AtCount(job: Job, woken: bool) // about to increment the counter
    | AtPush(job: Job)               // about to push
    | AtNotify(job: Job)             // about to notify a consumer and return 0
    | AtGaugeElements(job: Job)      // back in the collector, mutex released
    | AtGaugeBytes(job: Job)
    | AtReject(job: Job)             // back in the collector with -1

  datatype Consumer =
    | Exited
    | AtLoop(held: bool)             // about to test the stop flag; held after `continue`
    | AtJobLock                      // about to take mutex_job
    | AtWork                         // holds mutex_job, about to read the stop flag
    | AtEmpty                        // holds mutex_job, about to test the queue
    | AtSleep                        // found no job, about to wait and so release mutex_job
    | Sleeping                       // inside consume_job_condition.wait, mutex released
    | Relocking                      // notified, has to take mutex_job again
    | AtRecheck                      // holds mutex_job, second emptiness test
    | AtPop                          // holds mutex_job, about to pop and unlock
    | AtDecrement(job: Job)          // about to decrement the counter
    | AtFree(job: Job)               // about to notify a waiting submitter
    | AtExecute(job: Job)            // about to execute the job
    | AtUngaugeElements(job: Job)
    | AtUngaugeBytes(job: Job)
    | LockError                      // locked a mutex it already owned

  /** The owner thread that calls start and stop. */
  datatype Control = Stopped | Spawning(next: nat) | Running | AtNotifyAll | Joining

  /** The gauges and the counter of the metric collector. */
  datatype Metrics = Metrics(
    elements: int,                   // the queued-elements gauge
    bytes: int,                      // the queued-memory gauge
    rejections: nat)                 // the rejected-elements counter

  /** What happened so far, in order. */
  datatype Log = Log(
    called: seq<Job>,                // submitJobInfo was entered
    accepted: seq<Job>,              // pushed
    popped: seq<Job>,                // popped
    stored: seq<Job>,                // handed to pushObject
    dropped: seq<Job>,               // executed under a tag executeJob ignores
    returned: seq<Job>,              // submitJobInfo returned 0
    rejected: seq<Job>)              // submitJobInfo returned -1

  datatype State = State(
    maxElement: nat,
    queue: seq<Job>,
    inQueue: int,                    // job_in_queue, an unsigned 64-bit counter
    work: bool,
    submitLock: Option<nat>,
    jobLock: Option<nat>,
    subs: seq<Submitter>,
    cons: seq<Consumer>,
    control: Control,
    metrics: Metrics,
    log: Log)

  function Init(maxElement: nat, submitters: nat, consumers: nat): State {
    State(maxElement, [], 0, false, None, None,
          seq(submitters, _ => Outside), seq(consumers, _ => Exited), Stopped,
          Metrics(0, 0, 0), Log([], [], [], [], [], [], []))
  }

  // ---------------------------------------------------------------- steps

  datatype Action =
    | Call(t: nat, job: Job)               // submitter t enters submitJobInfo
    | Submit(t: nat, wake: Option<nat>)    // submitter t executes its next line
    | Expire(t: nat)                       // the wait of submitter t times out
    | SpuriousPush(t: nat)                 // submitter t leaves its wait without a notify
    | Consume(k: nat, wake: Option<nat>)   // consumer k executes its next line
    | SpuriousConsume(k: nat)
    | Start | Spawn | Stop | NotifyAll | Join

  /** A notify_one wakes one waiting thread, or nobody when nobody waits. */
  predicate WakesConsumer(s: State, wake: Option<nat>) {
    match wake
    case Some(k) => k < |s.cons| && s.cons[k] == Sleeping
    case None => forall k :: 0 <= k < |s.cons| ==> s.cons[k] != Sleeping
  }

  predicate WakesSubmitter(s: State, wake: Option<nat>) {
    match wake
    case Some(t) => t < |s.subs| && s.subs[t].Waiting?
    case None => forall t :: 0 <= t < |s.subs| ==> !s.subs[t].Waiting?
  }

  function Relock(s: State, wake: Option<nat>): seq<Consumer>
    requires WakesConsumer(s, wake)
  {
    if wake.Some? then s.cons[wake.value := Relocking] else s.cons
  }

  function Wake(s: State, wake: Option<nat>): seq<Submitter>
    requires WakesSubmitter(s, wake)
  {
    if wake.Some? then s.subs[wake.value := Woken(s.subs[wake.value].job)] else s.subs
  }

  /** The next line of submitter t; None when it is blocked. */
  function SubmitStep(s: State, t: nat, wake: Option<nat>): Option<State>
    requires t < |s.subs|
  {
    var at := s.subs[t];
    match at
    case Outside => None
    case AtLock(job) =>
      if s.submitLock.Some? then None
      else Some(s.(submitLock := Some(t), subs := s.subs[t := AtCheck(job)]))
    case AtCheck(job) =>
      Some(s.(subs := s.subs[t := if s.inQueue >= s.maxElement then AtWait(job)
                                  else AtCount(job, false)]))
    case AtWait(job) => Some(s.(submitLock := None, subs := s.subs[t := Waiting(job)]))
    case Waiting(_) => None
    case Woken(job) =>
      if s.submitLock.Some? then None
      else Some(s.(submitLock := Some(t), subs := s.subs[t := AtCount(job, true)]))
    case Expired(job) =>
      if s.submitLock.Some? then None
      else Some(s.(subs := s.subs[t := AtReject(job)]))
    case AtCount(job, _) =>
      Some(s.(inQueue := (s.inQueue + 1) % U64, subs := s.subs[t := AtPush(job)]))
    case AtPush(job) =>
      Some(s.(queue := s.queue + [job], log := s.log.(accepted := s.log.accepted + [job]),
              subs := s.subs[t := AtNotify(job)]))
    case AtNotify(job) =>
      if !WakesConsumer(s, wake) then None
      else Some(s.(submitLock := None, cons := Relock(s, wake),
                   subs := s.subs[t := AtGaugeElements(job)]))
    case AtGaugeElements(job) =>
      Some(s.(metrics := s.metrics.(elements := s.metrics.elements + Elements(job)),
              subs := s.subs[t := AtGaugeBytes(job)]))
    case AtGaugeBytes(job) =>
      Some(s.(metrics := s.metrics.(bytes := s.metrics.bytes + Bytes(job)),
              log := s.log.(returned := s.log.returned + [job]),
              subs := s.subs[t := Outside]))
    case AtReject(job) =>
      Some(s.(metrics := s.metrics.(rejections := s.metrics.rejections + 1),
              log := s.log.(rejected := s.log.rejected + [job]),
              subs := s.subs[t := Outside]))
  }

  /** The next line of consumer k; None when it is blocked. */
  function ConsumeStep(s: State, k: nat, wake: Option<nat>): Option<State>
    requires k < |s.cons|
  {
    var at := s.cons[k];
    match at
    case Exited => None
    case LockError => None
    case Sleeping => None
    case AtLoop(held) =>
      if s.work then Some(s.(cons := s.cons[k := if held then LockError else AtJobLock]))
      else Some(s.(jobLock := if held then None else s.jobLock, cons := s.cons[k := Exited]))
    case AtJobLock =>
      if s.jobLock.Some? then None
      else Some(s.(jobLock := Some(k), cons := s.cons[k := AtWork]))
    case AtWork =>
      Some(s.(cons := s.cons[k := if s.work then AtEmpty else AtRecheck]))
    case AtEmpty =>
      Some(s.(cons := s.cons[k := if s.queue == [] then AtSleep else AtRecheck]))
    case AtSleep => Some(s.(jobLock := None, cons := s.cons[k := Sleeping]))
    case Relocking =>
      if s.jobLock.Some? then None
      else Some(s.(jobLock := Some(k), cons := s.cons[k := AtWork]))
    case AtRecheck =>
      Some(s.(cons := s.cons[k := if s.queue == [] then AtLoop(true) else AtPop]))
    case AtPop =>
      if s.queue == [] then None     // front of an empty queue: never reached in a run
      else Some(s.(queue := s.queue[1..], jobLock := None,
                   log := s.log.(popped := s.log.popped + [s.queue[0]]),
                   cons := s.cons[k := AtDecrement(s.queue[0])]))
    case AtDecrement(job) =>
      Some(s.(inQueue := (s.inQueue - 1) % U64, cons := s.cons[k := AtFree(job)]))
    case AtFree(job) =>
      if !WakesSubmitter(s, wake) then None
      else Some(s.(subs := Wake(s, wake), cons := s.cons[k := AtExecute(job)]))
    case AtExecute(job) =>
      Some(s.(log := if Archived(job) then s.log.(stored := s.log.stored + [job])
                     else s.log.(dropped := s.log.dropped + [job]),
              cons := s.cons[k := AtUngaugeElements(job)]))
    case AtUngaugeElements(job) =>
      Some(s.(metrics := s.metrics.(elements := s.metrics.elements - Elements(job)),
              cons := s.cons[k := AtUngaugeBytes(job)]))
    case AtUngaugeBytes(job) =>
      Some(s.(metrics := s.metrics.(bytes := s.metrics.bytes - Bytes(job)),
              cons := s.cons[k := AtLoop(false)]))
  }

  /** notify_all on the consumers' condition. */
  function WakeAll(cons: seq<Consumer>): seq<Consumer> {
    seq(|cons|, i requires 0 <= i < |cons| => if cons[i] == Sleeping then Relocking else cons[i])
  }

  /** One action of one thread; None when it is not possible in s. */
  function Step(s: State, a: Action): Option<State> {
    match a
    case Call(t, job) =>
      if t < |s.subs| && s.subs[t] == Outside then
        Some(s.(log := s.log.(called := s.log.called + [job]), subs := s.subs[t := AtLock(job)]))
      else None
    case Submit(t, wake) =>
      if t < |s.subs| then SubmitStep(s, t, wake) else None
    case Expire(t) =>
      if t < |s.subs| && s.subs[t].Waiting? then
        Some(s.(subs := s.subs[t := Expired(s.subs[t].job)]))
      else None
    case SpuriousPush(t) =>
      if t < |s.subs| && s.subs[t].Waiting? then
        Some(s.(subs := s.subs[t := Woken(s.subs[t].job)]))
      else None
    case Consume(k, wake) =>
      if k < |s.cons| then ConsumeStep(s, k, wake) else None
    case SpuriousConsume(k) =>
      if k < |s.cons| && s.cons[k] == Sleeping then Some(s.(cons := s.cons[k := Relocking]))
      else None
    case Start =>
      if s.control == Stopped then Some(s.(work := true, control := Spawning(0))) else None
    case Spawn =>
      if !s.control.Spawning? then None
      else if s.control.next < |s.cons| then
        Some(s.(control := Spawning(s.control.next + 1),
                cons := s.cons[s.control.next := AtLoop(false)]))
      else Some(s.(control := Running))
    case Stop =>
      if s.control == Running then Some(s.(work := false, control := AtNotifyAll)) else None
    case NotifyAll =>
      if s.control == AtNotifyAll then Some(s.(cons := WakeAll(s.cons), control := Joining))
      else None
    case Join =>
      if s.control == Joining && forall k :: 0 <= k < |s.cons| ==> s.cons[k] == Exited then
        Some(s.(control := Stopped))
      else None
  }

  /** A run is a sequence of possible actions; Run gives the state it ends in. */
  function Run(s: State, acts: seq<Action>): Option<State> {
    if acts == [] then Some(s)
    else
      var r := Run(s, acts[..|acts| - 1]);
      if r.None? then None else Step(r.value, acts[|acts| - 1])
  }
}
