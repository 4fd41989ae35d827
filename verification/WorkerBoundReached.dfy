/** The ceiling of the worker's queue is reached, for every number of threads.

The run: submitter 0 fills the queue; every other submitter blocks on it and is woken by a pop,
whose room submitter 0 takes; every consumer pops once more and stops before its notify, and
submitter 0 takes that room too. Now the woken submitters push without looking, and submitter 0
blocks and is woken once per consumer that still owes its notify. */
module WorkerBoundReached {
  import opened Basics
  import opened DataWorker
  import opened WorkerBound

  lemma {:induction false} RunConcat(s: State, a: seq<Action>, b: seq<Action>)
    requires Run(s, a).Some? && Run(Run(s, a).value, b).Some?
    ensures Run(s, a + b) == Run(Run(s, a).value, b)
  {
    if b == [] {
      assert a + b == a;
    } else {
      var n := |b| - 1;
      RunConcat(s, a, b[..n]);
      assert (a + b)[..|a + b| - 1] == a + b[..n];
    }
  }

  ghost predicate NoSpurious(acts: seq<Action>) {
    NoSpuriousPush(acts) && forall i :: 0 <= i < |acts| ==> !acts[i].SpuriousConsume?
  }

  /** s' ends some run from s that has no spurious wakeup. */
  ghost predicate Reaches(s: State, s': State) {
    exists acts :: NoSpurious(acts) && Run(s, acts) == Some(s')
  }

  lemma Then(s: State, m: State, s': State)
    requires Reaches(s, m) && Reaches(m, s')
    ensures Reaches(s, s')
  {
    var a :| NoSpurious(a) && Run(s, a) == Some(m);
    var b :| NoSpurious(b) && Run(m, b) == Some(s');
    RunConcat(s, a, b);
    assert NoSpurious(a + b);
  }

  lemma Here(s: State)
    ensures Reaches(s, s)
  {
    assert NoSpurious([]) && Run(s, []) == Some(s);
  }

  /** Extends a run by one action. */
  lemma Do(s: State, m: State, a: Action) returns (s': State)
    requires Reaches(s, m) && Step(m, a).Some? && !a.SpuriousPush? && !a.SpuriousConsume?
    ensures s' == Step(m, a).value && Reaches(s, s')
  {
    s' := Step(m, a).value;
    assert Run(m, [a]) == Some(s') by { assert [a][..0] == []; }
    assert NoSpurious([a]);
    Then(s, m, s');
  }

  /** Everybody is between two operations, and no consumer sleeps. */
  ghost predicate Calm(s: State) {
    && s.work && s.submitLock.None? && s.jobLock.None?
    && 0 <= s.inQueue < U64 - 1 && |s.queue| == s.inQueue
    && (forall k :: 0 <= k < |s.cons| ==> s.cons[k] != Sleeping)
  }

  /** s' differs from s in these tables and in the number of queued jobs. */
  ghost predicate Now(s: State, s': State, subs: seq<Submitter>, cons: seq<Consumer>, more: int) {
    && Reaches(s, s')
    && s'.subs == subs && s'.cons == cons && s'.maxElement == s.maxElement
    && s'.work == s.work && s'.submitLock == s.submitLock && s'.jobLock == s.jobLock
    && s'.inQueue == s.inQueue + more && |s'.queue| == |s.queue| + more
  }

  /** A submitter outside calls, finds room and pushes. */
  lemma Fresh(s: State, job: Job) returns (s': State)
    requires Calm(s) && 0 < |s.subs| && s.subs[0] == Outside && s.inQueue < s.maxElement
    ensures Now(s, s', s.subs, s.cons, 1)
  {
    hide Reaches, Run;
    Here(s);
    var a := Do(s, s, Call(0, job));
    a := Do(s, a, Submit(0, None));
    a := Do(s, a, Submit(0, None));
    s' := Finish(s, a, 0, job, false);
  }

  lemma Increment(m: State, t: nat)
    requires t < |m.subs| && m.subs[t].AtCount? && 0 <= m.inQueue < U64 - 1
    ensures Step(m, Submit(t, None))
            == Some(m.(inQueue := m.inQueue + 1, subs := m.subs[t := AtPush(m.subs[t].job)]))
  {
    assert (m.inQueue + 1) % U64 == m.inQueue + 1;
  }

  lemma Decrement(m: State, k: nat)
    requires k < |m.cons| && m.cons[k].AtDecrement? && 0 < m.inQueue < U64
    ensures Step(m, Consume(k, None))
            == Some(m.(inQueue := m.inQueue - 1, cons := m.cons[k := AtFree(m.cons[k].job)]))
  {
    assert (m.inQueue - 1) % U64 == m.inQueue - 1;
  }

  /** From the increment on, nothing can stop a submitter. */
  lemma Finish(s: State, m: State, t: nat, job: Job, woken: bool) returns (s': State)
    requires Reaches(s, m) && t < |m.subs| && m.subs[t] == AtCount(job, woken)
    requires 0 <= m.inQueue < U64 - 1
    requires forall k :: 0 <= k < |m.cons| ==> m.cons[k] != Sleeping
    ensures Reaches(s, s') && s'.subs == m.subs[t := Outside] && s'.cons == m.cons
    ensures s'.maxElement == m.maxElement && s'.work == m.work
    ensures s'.submitLock == None && s'.jobLock == m.jobLock
    ensures s'.inQueue == m.inQueue + 1 && |s'.queue| == |m.queue| + 1
  {
    hide Reaches, Run;
    Increment(m, t);
    var a := Do(s, m, Submit(t, None));
    var b := Do(s, a, Submit(t, None));
    s' := Leave(s, b, t, job);
  }

  lemma Leave(s: State, m: State, t: nat, job: Job) returns (s': State)
    requires Reaches(s, m) && t < |m.subs| && m.subs[t] == AtNotify(job)
    requires forall k :: 0 <= k < |m.cons| ==> m.cons[k] != Sleeping
    ensures Reaches(s, s') && s'.subs == m.subs[t := Outside] && s'.cons == m.cons
    ensures s'.maxElement == m.maxElement && s'.work == m.work
    ensures s'.submitLock == None && s'.jobLock == m.jobLock
    ensures s'.inQueue == m.inQueue && s'.queue == m.queue && s'.control == m.control
  {
    hide Reaches, Run;
    var a := Do(s, m, Submit(t, None));
    a := Do(s, a, Submit(t, None));
    s' := Do(s, a, Submit(t, None));
  }

  /** A submitter outside calls and finds the queue full. */
  lemma Block(s: State, t: nat, job: Job) returns (s': State)
    requires Calm(s) && t < |s.subs| && s.subs[t] == Outside && s.maxElement <= s.inQueue
    ensures Now(s, s', s.subs[t := Waiting(job)], s.cons, 0)
  {
    hide Reaches, Run;
    Here(s);
    var a := Do(s, s, Call(t, job));
    a := Do(s, a, Submit(t, None));
    a := Do(s, a, Submit(t, None));
    s' := Do(s, a, Submit(t, None));
  }

  /** A woken submitter pushes, whatever the counter says. */
  lemma Resume(s: State, t: nat) returns (s': State)
    requires Calm(s) && t < |s.subs| && s.subs[t].Woken?
    ensures Now(s, s', s.subs[t := Outside], s.cons, 1)
  {
    hide Reaches, Run;
    Here(s);
    var a := Do(s, s, Submit(t, None));
    s' := Finish(s, a, t, s.subs[t].job, true);
  }

  /** An idle consumer pops a job, decrements and stops before its notify. */
  lemma Take(s: State, k: nat) returns (s': State)
    requires Calm(s) && k < |s.cons| && s.cons[k] == AtLoop(false) && 0 < s.inQueue
    ensures Now(s, s', s.subs, s.cons[k := AtFree(s.queue[0])], -1)
  {
    hide Reaches, Run;
    var a := Lock(s, k);
    var b := Pop(s, a, k);
    Decrement(b, k);
    s' := Do(s, b, Consume(k, None));
  }

  lemma Pop(s: State, m: State, k: nat) returns (s': State)
    requires Reaches(s, m) && k < |m.cons| && m.cons[k] == AtRecheck && m.queue != []
    ensures Reaches(s, s')
    ensures s' == m.(queue := m.queue[1..], jobLock := None, log := s'.log,
                     cons := m.cons[k := AtDecrement(m.queue[0])])
  {
    hide Reaches, Run;
    var a := Do(s, m, Consume(k, None));
    assert a == m.(cons := m.cons[k := AtPop]);
    s' := Do(s, a, Consume(k, None));
  }

  lemma Lock(s: State, k: nat) returns (s': State)
    requires Calm(s) && k < |s.cons| && s.cons[k] == AtLoop(false) && s.queue != []
    ensures Reaches(s, s') && s' == s.(jobLock := Some(k), cons := s.cons[k := AtRecheck])
  {
    hide Reaches, Run;
    Here(s);
    var a := Do(s, s, Consume(k, None));
    a := Do(s, a, Consume(k, None));
    a := Do(s, a, Consume(k, None));
    s' := Do(s, a, Consume(k, None));
  }

  /** A consumer that made room announces it to a waiting submitter. */
  lemma Announce(s: State, k: nat, t: nat) returns (s': State)
    requires k < |s.cons| && s.cons[k].AtFree? && t < |s.subs| && s.subs[t].Waiting?
    ensures Now(s, s', s.subs[t := Woken(s.subs[t].job)], s.cons[k := AtExecute(s.cons[k].job)], 0)
  {
    hide Reaches, Run;
    Here(s);
    s' := Do(s, s, Consume(k, Some(t)));
  }

  lemma Execute(s: State, k: nat) returns (s': State)
    requires k < |s.cons| && s.cons[k].AtExecute?
    ensures Now(s, s', s.subs, s.cons[k := AtLoop(false)], 0)
  {
    hide Reaches, Run;
    Here(s);
    var job := s.cons[k].job;
    var a := Do(s, s, Consume(k, None));
    assert a.cons == s.cons[k := AtUngaugeElements(job)] && a.subs == s.subs;
    var b := Do(s, a, Consume(k, None));
    assert b.cons == s.cons[k := AtUngaugeBytes(job)] && b.subs == s.subs;
    s' := Do(s, b, Consume(k, None));
  }

  // ---------------------------------------------------------------- the run

  lemma {:induction false} SpawnAll(s: State, n: nat) returns (s': State)
    requires n <= |s.cons| && s.control == Spawning(|s.cons| - n)
    ensures Reaches(s, s') && |s'.cons| == |s.cons| && s'.subs == s.subs
    ensures forall k :: 0 <= k < |s.cons| ==>
              s'.cons[k] == if k < |s.cons| - n then s.cons[k] else AtLoop(false)
    ensures s'.maxElement == s.maxElement && s'.work == s.work && s'.queue == s.queue
    ensures s'.inQueue == s.inQueue && s'.submitLock == s.submitLock && s'.jobLock == s.jobLock
    ensures s'.control == Spawning(|s.cons|)
    decreases n
  {
    Here(s);
    if n == 0 { return s; }
    var a := Do(s, s, Spawn);
    var b := SpawnAll(a, n - 1);
    Then(s, a, b);
    s' := b;
  }

  lemma {:induction false} Fill(s: State, job: Job, n: nat) returns (s': State)
    requires Calm(s) && 0 < |s.subs| && s.subs[0] == Outside
    requires s.inQueue + n == s.maxElement < U64 - 1
    ensures Now(s, s', s.subs, s.cons, n)
    decreases n
  {
    hide Reaches, Run, Step;
    Here(s);
    if n == 0 { return s; }
    var a := Fresh(s, job);
    var b := Fill(a, job, n - 1);
    Then(s, a, b);
    s' := b;
  }

  /** Submitters t, t+1, ... block and are woken, while the counter returns to max_element. */
  lemma {:induction false} WakeRest(s: State, job: Job, t: nat) returns (s': State)
    requires Calm(s) && 0 < t <= |s.subs| && s.subs[0] == Outside
    requires 0 < s.maxElement == s.inQueue && 0 < |s.cons| && s.cons[0] == AtLoop(false)
    requires forall i :: t <= i < |s.subs| ==> s.subs[i] == Outside
    ensures |s'.subs| == |s.subs| && Now(s, s', s'.subs, s.cons, 0)
    ensures forall i :: 0 <= i < |s.subs| ==>
              s'.subs[i] == if i < t then s.subs[i] else Woken(job)
    decreases |s.subs| - t
  {
    hide Reaches, Run, Step;
    Here(s);
    if t == |s.subs| { return s; }
    var a := Block(s, t, job);
    var b := Take(a, 0);
    Then(s, a, b);
    var c := Announce(b, 0, t);
    Then(s, b, c);
    var d := Execute(c, 0);
    Then(s, c, d);
    var e := Fresh(d, job);
    Then(s, d, e);
    assert e.cons == s.cons;
    var f := WakeRest(e, job, t + 1);
    Then(s, e, f);
    s' := f;
  }

  /** Consumers k, k+1, ... stop before their notify, while the counter returns to max_element. */
  lemma {:induction false} StallRest(s: State, job: Job, k: nat) returns (s': State)
    requires Calm(s) && 0 < |s.subs| && s.subs[0] == Outside && k <= |s.cons|
    requires 0 < s.maxElement == s.inQueue
    requires forall i :: k <= i < |s.cons| ==> s.cons[i] == AtLoop(false)
    ensures |s'.cons| == |s.cons| && Now(s, s', s.subs, s'.cons, 0)
    ensures forall i :: 0 <= i < |s.cons| ==>
              if i < k then s'.cons[i] == s.cons[i] else s'.cons[i].AtFree?
    decreases |s.cons| - k
  {
    hide Reaches, Run, Step;
    Here(s);
    if k == |s.cons| { return s; }
    var a := Take(s, k);
    var b := Fresh(a, job);
    Then(s, a, b);
    var c := StallRest(b, job, k + 1);
    Then(s, b, c);
    s' := c;
  }

  /** The woken submitters t, t+1, ... push past max_element. */
  lemma {:induction false} ResumeRest(s: State, t: nat) returns (s': State)
    requires Calm(s) && 0 < t <= |s.subs| && s.subs[0] == Outside
    requires s.inQueue + |s.subs| - t < U64 - 1
    requires forall i :: t <= i < |s.subs| ==> s.subs[i].Woken?
    ensures |s'.subs| == |s.subs| && s'.subs[0] == Outside
    ensures Now(s, s', s'.subs, s.cons, |s.subs| - t)
    decreases |s.subs| - t
  {
    hide Reaches, Run, Step;
    Here(s);
    if t == |s.subs| { return s; }
    var a := Resume(s, t);
    var b := ResumeRest(a, t + 1);
    Then(s, a, b);
    s' := b;
  }

  /** Each consumer that owes a notify lets submitter 0 push once more past max_element. */
  lemma {:induction false} OweRest(s: State, job: Job, k: nat) returns (s': State)
    requires Calm(s) && 0 < |s.subs| && s.subs[0] == Outside && k <= |s.cons|
    requires s.maxElement <= s.inQueue && s.inQueue + |s.cons| - k < U64 - 1
    requires forall i :: k <= i < |s.cons| ==> s.cons[i].AtFree?
    ensures Reaches(s, s') && s'.inQueue == s.inQueue + |s.cons| - k
    decreases |s.cons| - k
  {
    hide Reaches, Run, Step;
    Here(s);
    if k == |s.cons| { return s; }
    var a := Block(s, 0, job);
    var b := Announce(a, k, 0);
    Then(s, a, b);
    var c := Resume(b, 0);
    Then(s, b, c);
    var d := OweRest(c, job, k + 1);
    Then(s, c, d);
    s' := d;
  }

  lemma Begin(maxElement: nat, submitters: nat, consumers: nat) returns (s': State)
    ensures Reaches(Init(maxElement, submitters, consumers), s')
    ensures s'.maxElement == maxElement && s'.inQueue == 0 && s'.queue == [] && s'.work
    ensures s'.submitLock.None? && s'.jobLock.None?
    ensures s'.subs == seq(submitters, _ => Outside) && |s'.cons| == consumers
    ensures s'.control == Spawning(consumers)
    ensures forall k :: 0 <= k < consumers ==> s'.cons[k] == AtLoop(false)
  {
    hide Reaches, Run;
    var s := Init(maxElement, submitters, consumers);
    Here(s);
    var a := Do(s, s, Start);
    s' := SpawnAll(a, consumers);
    Then(s, a, s');
  }

  /** With at least one submitter, one consumer and room for one job, the counter reaches
      max_element + consumers + submitters - 1, so max_element does not bound it. */
  lemma CeilingReached(maxElement: nat, submitters: nat, consumers: nat, job: Job)
    returns (acts: seq<Action>)
    requires 1 <= maxElement && 1 <= submitters && 1 <= consumers
    requires maxElement + consumers + submitters < U64 - 1
    ensures NoSpurious(acts)
    ensures var r := Run(Init(maxElement, submitters, consumers), acts);
            r.Some? && r.value.inQueue == maxElement + consumers + submitters - 1 > maxElement
  {
    hide Run, Step, SubmitStep, ConsumeStep;
    var s := Init(maxElement, submitters, consumers);
    var b := Begin(maxElement, submitters, consumers);
    var c := Fill(b, job, maxElement);
    Then(s, b, c);
    var d := WakeRest(c, job, 1);
    Then(s, c, d);
    var e := StallRest(d, job, 0);
    Then(s, d, e);
    var f := ResumeRest(e, 1);
    Then(s, e, f);
    var g := OweRest(f, job, 0);
    Then(s, f, g);
    acts :| NoSpurious(acts) && Run(s, acts) == Some(g);
  }
}
