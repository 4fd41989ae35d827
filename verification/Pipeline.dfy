/** The put path of the metadata service, end to end: request handlers write live data to the
cache and hand history data round robin to the archiving workers.

A run interleaves single steps of all handlers with single lines of all worker threads. Handler t
is submitter t of every worker. */
module Pipeline {
  import opened Basics
  import opened Folds
  import opened RoundRobin
  import W = DataWorker
  import S = WorkerSafety

  type Job = W.Job

  const INDEX_PERIOD: nat := 65536     // device_data_worker_index is 16 bits wide

  /** storage_type & DSStorageTypeHistory */
  predicate HistoryBit(tag: W.Tag) { tag % 2 == 1 }

  /** storage_type & DSStorageTypeLive */
  predicate LiveBit(tag: W.Tag) { (tag / 2) % 2 == 1 }

  /** One of the four declared storage tags. */
  predicate Legal(tag: W.Tag) { tag <= W.LIVE_HISTORY }

  datatype Handler =
    | Idle
    | AtCache(put: Job)                // about to write the cache
    | AtTest(put: Job, err: bool)      // about to decide on archiving
    | AtSubmit(put: Job, w: nat)       // worker chosen, about to call submitJobInfo
    | Submitting(put: Job, w: nat)     // inside submitJobInfo of worker w

  datatype Log = Log(
    live: seq<Job>,                    // successful cache writes
    unwritten: seq<Job>,               // failed cache writes
    picks: seq<nat>,                   // workers chosen, one per archiving attempt
    received: seq<Job>,
    succeeded: seq<Job>,               // consumePutEvent returned 0
    failed: seq<Job>)                  // consumePutEvent returned an error

  datatype State = State(
    workers: seq<W.State>,
    cache: map<string, Job>,
    index: nat,                        // device_data_worker_index
    handlers: seq<Handler>,
    log: Log)

  datatype Action =
    | Receive(t: nat, put: Job)
    | WriteCache(t: nat, ok: bool)
    | Test(t: nat)
    | Enter(t: nat)
    | Worker(w: nat, act: W.Action)

  ghost predicate Initial(p: State) {
    && 0 < |p.workers|
    && p == State(p.workers, map[], 0, seq(|p.handlers|, _ => Idle), Log([], [], [], [], [], []))
    && forall w :: 0 <= w < |p.workers| ==>
         exists maxElement: nat, consumers: nat ::
           p.workers[w] == W.Init(maxElement, |p.handlers|, consumers)
  }

  /** consumePutEvent of handler t returns. */
  function Return(p: State, t: nat, put: Job, ok: bool): State
    requires t < |p.handlers|
  {
    var log := if ok then p.log.(succeeded := p.log.succeeded + [put])
               else p.log.(failed := p.log.failed + [put]);
    p.(handlers := p.handlers[t := Idle], log := log)
  }

  function Step(p: State, a: Action): Option<State> {
    match a
    case Receive(t, put) =>
      if !(t < |p.handlers| && p.handlers[t] == Idle) then None
      else Some(p.(handlers := p.handlers[t := if LiveBit(put.tag) then AtCache(put)
                                                else AtTest(put, false)],
                     log := p.log.(received := p.log.received + [put])))
    case WriteCache(t, ok) =>
      if !(t < |p.handlers| && p.handlers[t].AtCache?) then None
      else
        var put := p.handlers[t].put;
        var q := p.(handlers := p.handlers[t := AtTest(put, !ok)]);
        Some(if ok then q.(cache := p.cache[put.key := put],
                             log := p.log.(live := p.log.live + [put]))
             else q.(log := p.log.(unwritten := p.log.unwritten + [put])))
    case Test(t) =>
      if !(t < |p.handlers| && p.handlers[t].AtTest? && 0 < |p.workers|) then None
      else
        var put, err := p.handlers[t].put, p.handlers[t].err;
        if !err && HistoryBit(put.tag) then
          var w := p.index % |p.workers|;
          Some(p.(index := (p.index + 1) % INDEX_PERIOD,
                    handlers := p.handlers[t := AtSubmit(put, w)],
                    log := p.log.(picks := p.log.picks + [w])))
        else Some(Return(p, t, put, !err))
    case Enter(t) =>
      if !(t < |p.handlers| && p.handlers[t].AtSubmit? && p.handlers[t].w < |p.workers|) then None
      else
        var put, w := p.handlers[t].put, p.handlers[t].w;
        var r := W.Step(p.workers[w], W.Call(t, put));
        if r.None? then None
        else Some(p.(workers := p.workers[w := r.value],
                       handlers := p.handlers[t := Submitting(put, w)]))
    case Worker(w, act) =>
      if !(w < |p.workers|) || act.Call? then None
      else
        var r := W.Step(p.workers[w], act);
        if r.None? then None
        else
          var q := p.(workers := p.workers[w := r.value]);
          if act.Submit? && act.t < |p.handlers| && act.t < |r.value.subs|
             && r.value.subs[act.t] == W.Outside && p.handlers[act.t].Submitting?
          then Some(Return(q, act.t, p.handlers[act.t].put,
                             !p.workers[w].subs[act.t].AtReject?))
          else Some(q)
  }

  function Run(p: State, acts: seq<Action>): Option<State> {
    if acts == [] then Some(p)
    else
      var r := Run(p, acts[..|acts| - 1]);
      if r.None? then None else Step(r.value, acts[|acts| - 1])
  }

  // ---------------------------------------------------------------- invariants

  /** Handler t sits in the submitter slot of the worker it called, and in no other. */
  ghost predicate Seated(p: State, t: nat)
    requires t < |p.handlers|
  {
    forall w :: 0 <= w < |p.workers| ==>
      && |p.workers[w].subs| == |p.handlers|
      && (if p.handlers[t].Submitting? && p.handlers[t].w == w
          then p.workers[w].subs[t] != W.Outside && p.workers[w].subs[t].job == p.handlers[t].put
          else p.workers[w].subs[t] == W.Outside)
  }

  ghost predicate Placed(p: State) {
    && 0 < |p.workers|
    && (forall w :: 0 <= w < |p.workers| ==> |p.workers[w].subs| == |p.handlers|)
    && (forall t :: 0 <= t < |p.handlers| ==>
          && Seated(p, t)
          && (p.handlers[t].AtSubmit? || p.handlers[t].Submitting? ==>
                p.handlers[t].w < |p.workers| && HistoryBit(p.handlers[t].put.tag))
          && (p.handlers[t].AtCache? ==> LiveBit(p.handlers[t].put.tag)))
  }

  ghost predicate WorkersSound(p: State) {
    forall w :: 0 <= w < |p.workers| ==> S.Inv(p.workers[w])
  }

  /** The wrapping index is the number of attempts so far; attempt k went to its slot. */
  ghost predicate Rotates(p: State) {
    && 0 < |p.workers|
    && p.index == |p.log.picks| % INDEX_PERIOD
    && forall k :: 0 <= k < |p.log.picks| ==>
         p.log.picks[k] == Slot(k, INDEX_PERIOD, |p.workers|)
  }

  /** put is the latest entry of the log for its key. */
  ghost predicate Latest(log: seq<Job>, key: string, put: Job) {
    exists i :: 0 <= i < |log| && log[i] == put && put.key == key
                && forall k :: i < k < |log| ==> log[k].key != key
  }

  ghost predicate CacheLatest(p: State) {
    && (forall key :: key in p.cache ==> Latest(p.log.live, key, p.cache[key]))
    && (forall i :: 0 <= i < |p.log.live| ==> p.log.live[i].key in p.cache)
    && (forall i :: 0 <= i < |p.log.live| ==> LiveBit(p.log.live[i].tag))
  }

  /** How often worker submissions of job j returned 0. */
  ghost function Returned(j: Job): W.State -> int {
    (s: W.State) => S.Times(s.log.returned, j)
  }

  ghost predicate ReturnsMatch(p: State, j: Job) {
    Sum(p.workers, Returned(j)) == if HistoryBit(j.tag) then S.Times(p.log.succeeded, j) else 0
  }

  /** Is this handler busy with put j? */
  ghost function Busy(j: Job): Handler -> int {
    (h: Handler) => if h != Idle && h.put == j then 1 else 0
  }

  ghost predicate PutsConserved(p: State, j: Job) {
    S.Times(p.log.received, j)
    == S.Times(p.log.succeeded, j) + S.Times(p.log.failed, j) + Sum(p.handlers, Busy(j))
  }

  ghost predicate Inv(p: State) {
    && Placed(p) && WorkersSound(p) && Rotates(p) && CacheLatest(p)
    && (forall j :: ReturnsMatch(p, j))
    && (forall j :: PutsConserved(p, j))
  }
}
