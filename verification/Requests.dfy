/** The remote requests of the metadata service's batch commands: a request is sent, then its phase
is polled until an answer has come or too many polls went unanswered. */
module Requests {
  import opened Basics

  datatype Phase = Unsent | Sent | Completed | TimedOut

  /** retry is 32 bits wide, counts unanswered polls, and is never reset by a new send. */
  datatype Info = Info(phase: Phase, retry: nat, future: Option<nat>)

  const MAX_UNANSWERED: nat := 3

  datatype Event =
    | SendRequest(future: nat)          // expects an answer through this future
    | SendMessage                       // expects none
    | Manage(answered: bool)            // one poll, waiting a second for the answer

  const FRESH := Info(Unsent, 0, None)
  const NODE_DOWN := Info(TimedOut, 0, None)    // created for a node that is not alive

  function Manage1(s: Info, answered: bool): Info {
    if s.phase != Sent || s.future.None? then s
    else if answered then s.(phase := Completed)
    else
      var retry := (s.retry + 1) % U32;
      Info(if retry % MAX_UNANSWERED == 0 then TimedOut else Sent, retry, s.future)
  }

  function Next(s: Info, e: Event): Info {
    match e
    case SendRequest(f) => s.(phase := Sent, future := Some(f))
    case SendMessage => s.(phase := Completed)
    case Manage(answered) => Manage1(s, answered)
  }

  function Run(s: Info, events: seq<Event>): Info {
    if events == [] then s else Next(Run(s, events[..|events| - 1]), events[|events| - 1])
  }

  class Request {
    var phase: Phase
    var retry: nat
    var future: Option<nat>

    ghost function View(): Info
      reads this
    {
      Info(phase, retry, future)
    }

    constructor ()
      ensures View() == FRESH
    {
      phase, retry, future := Unsent, 0, None;
    }

    method SendRequest(f: nat)
      modifies this
      ensures View() == Next(old(View()), Event.SendRequest(f))
    {
      future := Some(f);
      phase := Sent;
    }

    method SendMessage()
      modifies this
      ensures View() == Next(old(View()), Event.SendMessage)
    {
      phase := Completed;
    }

    /** err is the code of the exception, 0 for none. */
    method ManageRequestPhase(answered: bool) returns (err: int)
      modifies this
      ensures View() == Next(old(View()), Manage(answered))
      ensures err == if old(phase) == Unsent then -1
                     else if old(phase) == Sent && old(future).None? then -2 else 0
    {
      err := 0;
      match phase {
        case Unsent => err := -1;
        case Sent =>
          if future.None? { return -2; }
          if answered {
            phase := Completed;
          } else {
            retry := (retry + 1) % U32;
            if retry % MAX_UNANSWERED == 0 {
              phase := TimedOut;
            }
          }
        case Completed =>
        case TimedOut =>
      }
    }
  }

  // ---------------------------------------------------------------- every run

  ghost predicate Reachable(s: Info) {
    exists start, events :: start in {FRESH, NODE_DOWN} && s == Run(start, events)
  }

  lemma {:induction false} RunInvariant(start: Info, events: seq<Event>)
    requires start in {FRESH, NODE_DOWN}
    ensures var s := Run(start, events);
            && s.retry < U32
            && (s.phase == Sent ==> s.future.Some?)
            && (s.phase == Unsent ==> s == FRESH)
    decreases |events|
  {
    if events != [] { RunInvariant(start, events[..|events| - 1]); }
  }

  /** A sent request always has a future, so polling it never throws; only a request that was
      never sent does. */
  lemma SentHasFuture(s: Info)
    requires Reachable(s)
    ensures s.retry < U32
    ensures s.phase == Sent ==> s.future.Some?
    ensures s.phase == Unsent <==> s == FRESH
  {
    var start, events :| start in {FRESH, NODE_DOWN} && s == Run(start, events);
    RunInvariant(start, events);
  }

  // ---------------------------------------------------------------- polling

  function Polls(answers: seq<bool>): seq<Event> {
    seq(|answers|, i requires 0 <= i < |answers| => Manage(answers[i]))
  }

  /** How many unanswered polls a request stands. */
  function Patience(retry: nat): (n: nat)
    requires retry < U32
    ensures 1 <= n <= MAX_UNANSWERED
  {
    if retry == U32 - 1 then 1 else MAX_UNANSWERED - retry % MAX_UNANSWERED
  }

  /** The outcome of polling a sent request. */
  function Outcome(retry: nat, answers: seq<bool>): Phase
    requires retry < U32
  {
    if exists i :: 0 <= i < |answers| && i < Patience(retry) && answers[i] then Completed
    else if Patience(retry) <= |answers| then TimedOut
    else Sent
  }

  lemma PatienceShrinks(retry: nat)
    requires retry < U32
    ensures var next := (retry + 1) % U32;
            if Patience(retry) == 1 then next % MAX_UNANSWERED == 0
            else next % MAX_UNANSWERED != 0 && Patience(next) == Patience(retry) - 1
  {}

  lemma RunLast(s: Info, events: seq<Event>, e: Event)
    ensures Run(s, events + [e]) == Next(Run(s, events), e)
  {
    assert (events + [e])[..|events|] == events;
  }

  /** While a request is still polled, what it stands and what it stood add up. */
  lemma {:induction false} PollingStep(s: Info, answers: seq<bool>)
    requires s.phase == Sent && s.future.Some? && s.retry < U32
    ensures var t := Run(s, Polls(answers));
            && t.phase == Outcome(s.retry, answers)
            && t.retry < U32 && t.future == s.future
            && (t.phase == Sent ==> Patience(t.retry) == Patience(s.retry) - |answers|)
    decreases |answers|
  {
    if answers == [] {
      assert Polls(answers) == [];
    } else {
      var init, last := answers[..|answers| - 1], answers[|answers| - 1];
      PollingStep(s, init);
      assert Polls(answers) == Polls(init) + [Manage(last)];
      var t := Run(s, Polls(init));
      RunLast(s, Polls(init), Manage(last));
      PatienceShrinks(t.retry);
      OutcomeStep(s.retry, answers);
    }
  }

  lemma OutcomeStep(retry: nat, answers: seq<bool>)
    requires retry < U32 && answers != []
    ensures var before := Outcome(retry, answers[..|answers| - 1]);
            Outcome(retry, answers)
            == if before != Sent then before
               else if answers[|answers| - 1] then Completed
               else if Patience(retry) == |answers| then TimedOut else Sent
  {
    var init := answers[..|answers| - 1];
    if i :| 0 <= i < |init| && i < Patience(retry) && init[i] {
      assert answers[i];
    } else if answers[|answers| - 1] && |answers| - 1 < Patience(retry) {
    } else {
      assert forall i :: 0 <= i < |answers| && i < Patience(retry) ==>
          !answers[i] by {
        assert forall i :: 0 <= i < |init| ==> answers[i] == init[i];
      }
    }
  }

  /** Whatever its retry count, a sent request is completed or timed out after three polls. */
  lemma ThreePollsEnd(s: Info, answers: seq<bool>)
    requires Reachable(s) && s.phase == Sent && MAX_UNANSWERED <= |answers|
    ensures Run(s, Polls(answers)).phase in {Completed, TimedOut}
  {
    SentHasFuture(s);
    PollingStep(s, answers);
  }

  /** Completed and timed out are left only by a new send. */
  lemma {:induction false} Absorbing(s: Info, answers: seq<bool>)
    requires s.phase in {Completed, TimedOut}
    ensures Run(s, Polls(answers)) == s
    decreases |answers|
  {
    if answers != [] {
      Absorbing(s, answers[..|answers| - 1]);
      assert Polls(answers)[..|answers| - 1] == Polls(answers[..|answers| - 1]);
    }
  }

  /** A send gives a request all three polls iff the unanswered polls before it are a multiple of
      three and the 32-bit count is not at its end. */
  lemma FullPatienceIff(s: Info, f: nat)
    requires s.retry < U32
    ensures var t := Next(s, SendRequest(f));
            Run(t, Polls([false, false])).phase == Sent
            <==> s.retry % MAX_UNANSWERED == 0 && s.retry != U32 - 1
  {
    PollingStep(Next(s, SendRequest(f)), [false, false]);
  }

  lemma {:induction false} RunConcat(s: Info, a: seq<Event>, b: seq<Event>)
    ensures Run(s, a + b) == Run(Run(s, a), b)
    decreases |b|
  {
    if b == [] {
      assert a + b == a;
    } else {
      RunConcat(s, a, b[..|b| - 1]);
      assert (a + b)[..|a + b| - 1] == a + b[..|b| - 1];
    }
  }

  /** The polls after event i. */
  function AnswersAfter(events: seq<Event>, i: nat): seq<bool>
    requires i < |events| && forall k :: i < k < |events| ==> events[k].Manage?
  {
    seq(|events| - i - 1, k requires 0 <= k < |events| - i - 1 => events[i + 1 + k].answered)
  }

  /** In every run the last send decides. A message is completed whatever the polls say. A request is
      completed iff one of the polls it stands finds the answer; otherwise it is timed out once it has
      had them all. A request never sent stays as it was created. */
  lemma LastSendDecides(start: Info, events: seq<Event>, i: nat)
    requires start in {FRESH, NODE_DOWN}
    requires i < |events| && !events[i].Manage? && forall k :: i < k < |events| ==> events[k].Manage?
    ensures Run(start, events[..i]).retry < U32
    ensures var s := Run(start, events);
            match events[i]
            case SendMessage => s.phase == Completed
            case SendRequest(f) =>
              s.future == Some(f) && s.phase == Outcome(Run(start, events[..i]).retry, AnswersAfter(events, i))
            case Manage(_) => true
  {
    var before, answers := Run(start, events[..i]), AnswersAfter(events, i);
    RunInvariant(start, events[..i]);
    RunConcat(start, events[..i + 1], Polls(answers));
    assert events == events[..i + 1] + Polls(answers);
    assert events[..i + 1][..i] == events[..i];
    var sent := Next(before, events[i]);
    match events[i]
    case SendMessage => Absorbing(sent, answers);
    case SendRequest(f) => PollingStep(sent, answers);
  }

  lemma {:induction false} NeverSent(start: Info, events: seq<Event>)
    requires start in {FRESH, NODE_DOWN} && forall k :: 0 <= k < |events| ==> events[k].Manage?
    ensures Run(start, events) == start
    decreases |events|
  {
    if events != [] { NeverSent(start, events[..|events| - 1]); }
  }
}
