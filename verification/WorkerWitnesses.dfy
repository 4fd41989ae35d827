/** Runs that show what the archiving worker does not guarantee: a job may stay in the queue of a
stopped worker, and a consumer may sleep beside a job. */
module WorkerWitnesses {
  import opened Basics
  import opened DataWorker
  import opened WorkerSafety
  import opened WorkerBound
  import opened WorkerBoundReached

  /** The stopped consumers k, k+1, ... leave their loop. */
  lemma {:induction false} ExitAll(s: State, k: nat) returns (s': State)
    requires !s.work && k <= |s.cons| && s.control == Joining
    requires forall i :: 0 <= i < |s.cons| ==> s.cons[i] == if i < k then Exited else AtLoop(false)
    ensures Reaches(s, s') && s' == s.(cons := s'.cons) && |s'.cons| == |s.cons|
    ensures forall i :: 0 <= i < |s.cons| ==> s'.cons[i] == Exited
    decreases |s.cons| - k
  {
    hide Reaches, Run, SubmitStep;
    Here(s);
    if k == |s.cons| { return s; }
    var a := Do(s, s, Consume(k, None));
    s' := ExitAll(a, k + 1);
    Then(s, a, s');
  }

  /** A worker with one submitter is started and stopped again. */
  lemma StartAndStop(consumers: nat) returns (s: State)
    ensures Reaches(Init(1, 1, consumers), s) && s.control.Stopped? && |s.cons| == consumers
    ensures s.maxElement == 1 && s.inQueue == 0 && s.queue == [] && s.subs == [Outside]
    ensures s.submitLock.None? && forall k :: 0 <= k < consumers ==> s.cons[k] == Exited
  {
    hide Reaches, Run, SubmitStep, ConsumeStep;
    var s0 := Init(1, 1, consumers);
    var a := Begin(1, 1, consumers);
    a := Do(s0, a, Spawn);
    a := Do(s0, a, Stop);
    a := Do(s0, a, NotifyAll);
    var b := ExitAll(a, 0);
    Then(s0, a, b);
    s := Do(s0, b, Join);
  }

  /** A submitter calls, finds room and pushes its job; no consumer is asleep. */
  lemma Deposit(s0: State, s: State, job: Job) returns (s': State)
    requires Reaches(s0, s) && s.subs == [Outside] && s.queue == [] && s.inQueue == 0
    requires s.maxElement == 1 && s.submitLock.None?
    requires forall k :: 0 <= k < |s.cons| ==> s.cons[k] != Sleeping
    ensures Reaches(s0, s') && s'.subs == [Outside] && s'.queue == [job] && s'.cons == s.cons
    ensures s'.control == s.control && s'.work == s.work && s'.jobLock == s.jobLock
  {
    hide Reaches, Run, ConsumeStep;
    var a := Do(s0, s, Call(0, job));
    a := Do(s0, a, Submit(0, None));
    a := Do(s0, a, Submit(0, None));
    Increment(a, 0);
    var b := Do(s0, a, Submit(0, None));
    b := Do(s0, b, Submit(0, None));
    s' := Leave(s0, b, 0, job);
  }

  lemma ReachesReachable(maxElement: nat, submitters: nat, consumers: nat, s: State)
    requires Reaches(Init(maxElement, submitters, consumers), s)
    ensures Reachable(s)
  {
    var acts :| NoSpurious(acts) && Run(Init(maxElement, submitters, consumers), acts) == Some(s);
  }

  /** For every number of consumers a worker that was started and stopped may keep a job in its
      queue; initialised again, it counts none. */
  lemma ReinitMiscounts(job: Job, consumers: nat) returns (s: State)
    ensures Reachable(s) && s.control.Stopped? && |s.cons| == consumers
    ensures s.subs == [Outside] && s.queue == [job] && !Counter(Reinit(s))
  {
    hide Reaches, Reachable, Counter;
    var a := StartAndStop(consumers);
    s := Deposit(Init(1, 1, consumers), a, job);
    ReachesReachable(1, 1, consumers, s);
    ReinitCounts(s);
  }

  /** A consumer finds the queue empty and is about to wait. */
  lemma Doze() returns (s: State)
    ensures Reaches(Init(1, 1, 1), s) && s.work && s.cons == [AtSleep] && s.subs == [Outside]
    ensures s.maxElement == 1 && s.inQueue == 0 && s.queue == [] && s.submitLock.None?
    ensures s.control == Spawning(1) && s.log == Init(1, 1, 1).log
  {
    hide Reaches, Run, SubmitStep;
    var s0 := Init(1, 1, 1);
    Here(s0);
    var a := Do(s0, s0, Start);
    a := Do(s0, a, Spawn);
    assert a.cons == [AtLoop(false)];
    a := Do(s0, a, Consume(0, None));
    a := Do(s0, a, Consume(0, None));
    assert a.cons == [AtWork];
    a := Do(s0, a, Consume(0, None));
    s := Do(s0, a, Consume(0, None));
  }

  /** A push wakes the consumer that sleeps, and the job is executed without any spurious wakeup: for
      a history tag it is stored, otherwise dropped. */
  lemma PushWakesConsumer(job: Job) returns (s: State)
    ensures Reaches(Init(1, 1, 1), s) && s.queue == [] && s.subs == [Outside]
    ensures s.log.stored == (if job.tag == 1 || job.tag == 3 then [job] else [])
    ensures s.log.stored + s.log.dropped == [job] == s.log.returned
  {
    hide Reaches, Run;
    var s0 := Init(1, 1, 1);
    var a := Doze();
    a := Do(s0, a, Consume(0, None));
    assert a.cons == [Sleeping];
    var b := Hand(s0, a, job);
    s := Serve(s0, b, job);
  }

  /** A submitter calls, finds room, pushes its job and wakes consumer 0. */
  lemma Hand(s0: State, s: State, job: Job) returns (s': State)
    requires Reaches(s0, s) && s.subs == [Outside] && s.cons == [Sleeping] && s.queue == []
    requires s.maxElement == 1 && s.inQueue == 0 && s.submitLock.None? && s.log.returned == []
    ensures Reaches(s0, s') && s'.subs == [Outside] && s'.cons == [Relocking] && s'.queue == [job]
    ensures s'.inQueue == 1 && s'.jobLock == s.jobLock && s'.work == s.work
    ensures s'.log.returned == [job] && s'.log.stored == s.log.stored && s'.log.dropped == s.log.dropped
  {
    hide Reaches, Run, ConsumeStep;
    var a := Do(s0, s, Call(0, job));
    a := Do(s0, a, Submit(0, None));
    a := Do(s0, a, Submit(0, None));
    Increment(a, 0);
    a := Do(s0, a, Submit(0, None));
    a := Do(s0, a, Submit(0, None));
    assert a.cons[0] == Sleeping;
    a := Do(s0, a, Submit(0, Some(0)));
    assert a.cons == [Relocking];
    a := Do(s0, a, Submit(0, None));
    s' := Do(s0, a, Submit(0, None));
  }

  /** Consumer 0 wakes up, takes the job and executes it. */
  lemma Serve(s0: State, s: State, job: Job) returns (s': State)
    requires Reaches(s0, s) && s.subs == [Outside] && s.cons == [Relocking] && s.queue == [job]
    requires s.work && s.inQueue == 1 && s.jobLock.None? && s.log.stored == s.log.dropped == []
    ensures Reaches(s0, s') && s'.subs == [Outside] && s'.queue == []
    ensures s'.log.returned == s.log.returned
    ensures s'.log.stored == (if job.tag == 1 || job.tag == 3 then [job] else [])
    ensures s'.log.stored + s'.log.dropped == [job]
  {
    hide Reaches, Run, SubmitStep;
    var a := Do(s0, s, Consume(0, None));
    a := Do(s0, a, Consume(0, None));
    a := Do(s0, a, Consume(0, None));
    a := Do(s0, a, Consume(0, None));
    assert a.cons == [AtPop];
    a := Do(s0, a, Consume(0, None));
    Decrement(a, 0);
    a := Do(s0, a, Consume(0, None));
    a := Do(s0, a, Consume(0, None));
    s' := Do(s0, a, Consume(0, None));
  }

  /** A notify between the test of the queue and the wait is lost: the consumer then sleeps beside a
      job, and only a new call, a spurious wakeup or stop can change that. */
  lemma LostWakeup(job: Job) returns (s: State)
    ensures Reachable(s) && s.control.Running? && s.work
    ensures s.queue == [job] && s.cons == [Sleeping] && s.subs == [Outside]
    ensures forall a :: Step(s, a).Some? ==> a.Call? || a.SpuriousConsume? || a.Stop?
  {
    hide Reaches, Run, Reachable;
    var s0 := Init(1, 1, 1);
    var a := Doze();
    a := Deposit(s0, a, job);
    a := Do(s0, a, Consume(0, None));
    assert a.cons == [Sleeping];
    s := Do(s0, a, Spawn);
    ReachesReachable(1, 1, 1, s);
  }

  /** stop wakes every consumer that is asleep when it notifies, and touches nothing else. */
  lemma StopWakesSleepers(s: State, k: nat)
    requires Step(s, NotifyAll).Some? && k < |s.cons|
    ensures var s' := Step(s, NotifyAll).value;
            && |s'.cons| == |s.cons|
            && s'.cons[k] == (if s.cons[k] == Sleeping then Relocking else s.cons[k])
            && s' == s.(cons := s'.cons, control := Joining)
  {
    var s' := Step(s, NotifyAll).value;
    assert s'.cons == WakeAll(s.cons);
  }

  /** stop takes no lock, so a consumer that tested the stop flag before may go to sleep after the
      notification: stop then waits for it until a new call or a spurious wakeup. */
  lemma StopMissesConsumer() returns (s: State)
    ensures Reachable(s) && s.control.Joining? && !s.work && s.cons == [Sleeping]
    ensures forall a :: Step(s, a).Some? ==> a.Call? || a.SpuriousConsume?
  {
    hide Reaches, Run, Reachable, SubmitStep;
    var a := StopBeforeSleep();
    s := Do(Init(1, 1, 1), a, Consume(0, None));
    assert s.cons == [Sleeping];
    ReachesReachable(1, 1, 1, s);
    OnlyACallHelps(s);
  }

  lemma StopBeforeSleep() returns (s: State)
    ensures Reaches(Init(1, 1, 1), s) && s.cons == [AtSleep] && s.subs == [Outside]
    ensures s.control == Joining && !s.work
  {
    hide Reaches, Run, SubmitStep, ConsumeStep, WakeAll;
    var s0 := Init(1, 1, 1);
    var a := Doze();
    a := Do(s0, a, Spawn);
    a := Do(s0, a, Stop);
    StopWakesSleepers(a, 0);
    s := Do(s0, a, NotifyAll);
  }

  lemma OnlyACallHelps(s: State)
    requires s.control.Joining? && s.cons == [Sleeping] && s.subs == [Outside]
    ensures forall a :: Step(s, a).Some? ==> a.Call? || a.SpuriousConsume?
  {
    assert s.cons[0] == Sleeping;
  }
}
