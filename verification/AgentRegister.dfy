/** The agent's registration state machine.

`start` and `stop` set a phase and arm a one-second timer; each tick of the timer runs one step of
the machine; the metadata service answers a registration pack with an acknowledgement. The
transitions are given as functions on a value, `Agent`; the class does the same work on its fields
with the original's switch and fall-through. */
module AgentRegister {
  import opened Basics
  import opened Folds
  import opened RoundRobin
  import opened WorkerTable
  import PW = ProcessWorker

  type Association = PW.Association

  datatype Phase =
    | Unregistered | StartRegistering | Registering | Registered
    | StartUnregistering | Unregistering | Fault

  datatype Timer = Off | Armed

  datatype Ack =
    | NoContent
    | NoUid
    | OtherAgent
    | NoResult
    | Denied
    | Accepted(hasDescription: bool, description: seq<Association>)

  /** What the machine does to the world. */
  datatype Effect =
    | SentPack                           // sendNodeRegistration
    | AckedOk
    | InitWorkers(names: seq<string>)    // the workers that the loop initialised
    | Autostarted(launched: seq<Association>, respawned: seq<Association>)
    | DeinitWorkers(names: seq<string>)  // the workers that the loop deinitialised
    | Escaped(what: Thrown)              // an exception left a timer's callback

  /** An exception of the framework, or a plain one. */
  datatype Thrown = Chaos(code: int) | Plain

  /** launchProcess catches what goes wrong inside it as a plain exception and throws that copy, so
      the framework's own exceptions lose their type. */
  function Rethrown(t: Thrown): Thrown {
    Plain
  }

  /** An exception that leaves a timer's callback leaves the thread of the event loop as well, where nobody
      catches it, so it ends the process. */
  datatype Agent = Agent(
    phase: Phase,
    retry: nat,                          // reg_retry_counter, 32 bits wide
    timer: Timer,
    started: bool,
    ended: bool,                         // the process has terminated
    workers: Table,                      // map_worker
    associated: seq<Association>,
    log: seq<Effect>)

  const MAX_RETRY: nat := 5
  const RETRY_PERIOD: nat := U32

  /** An agent after init(), which adds the process worker. */
  const INITIAL := Agent(Unregistered, 0, Off, false, false, Add([], PROCESS_WORKER), [], [])

  // ---------------------------------------------------------------- transitions

  /** addTimer does nothing when a timer is already installed. */
  function AddTimer(t: Timer): Timer {
    if t == Off then Armed else t
  }

  function AutoStarted(nodes: seq<Association>): seq<Association> {
    if nodes == [] then []
    else
      var n := |nodes| - 1;
      AutoStarted(nodes[..n]) + if nodes[n].autoStart then [nodes[n]] else []
  }

  function AutoRespawned(nodes: seq<Association>): seq<Association> {
    if nodes == [] then []
    else
      var n := |nodes| - 1;
      AutoRespawned(nodes[..n])
      + if nodes[n].autoStart && nodes[n].keepAlive then [nodes[n]] else []
  }

  /** Which launches throw in a tick, by position in the list of nodes. */
  type Throws = map<nat, Thrown>

  /** The first autostart node from i on whose launch throws. */
  function FirstThrow(nodes: seq<Association>, throws: Throws, i: nat): (f: nat)
    requires i <= |nodes|
    ensures i <= f <= |nodes|
    ensures f < |nodes| ==> nodes[f].autoStart && f in throws
    ensures forall k :: i <= k < f ==> !(nodes[k].autoStart && k in throws)
    decreases |nodes| - i
  {
    if i == |nodes| || (nodes[i].autoStart && i in throws) then i else FirstThrow(nodes, throws, i + 1)
  }

  /** Does some launch of the autostart throw? */
  predicate Throwing(nodes: seq<Association>, throws: Throws) {
    exists i :: 0 <= i < |nodes| && nodes[i].autoStart && i in throws
  }

  function Started(a: Agent): Agent {
    a.(phase := StartRegistering, timer := AddTimer(a.timer), started := true)
  }

  function Stopping(a: Agent): Agent {
    a.(phase := StartUnregistering, timer := AddTimer(a.timer), started := false)
  }

  function Acked(a: Agent, ack: Ack): Agent {
    match ack
    case Accepted(has, description) =>
      a.(phase := Registered, associated := if has then description else a.associated,
         log := a.log + [AckedOk])
    case Denied => a.(phase := Unregistered)
    case _ => a
  }

  /** Every fifth tick, counted in 32 bits, sends a registration pack. */
  function Solicit(a: Agent): Agent {
    a.(phase := Registering, retry := (a.retry + 1) % RETRY_PERIOD,
       log := if a.retry % MAX_RETRY == 0 then a.log + [SentPack] else a.log)
  }

  /** Starts the nodes up to the first whose launch throws; only an exception of the framework is
      caught. */
  function Autostart(a: Agent, throws: Throws): Agent {
    var f := FirstThrow(a.associated, throws, 0);
    var nodes := a.associated[..f];
    var b := a.(log := a.log + [Autostarted(AutoStarted(nodes), AutoRespawned(nodes))]);
    if f == |a.associated| then b.(timer := Off)
    else
      var t := Rethrown(throws[f]);
      if t.Chaos? then b.(timer := Off, phase := Fault)
      else b.(ended := true, log := b.log + [Escaped(t)])
  }

  /** Initialises the workers, then looks two of them up and starts the nodes. */
  function Enlist(a: Agent, throws: Throws): Agent {
    var o := InitAll(a.workers);
    var b := a.(workers := o.table, log := a.log + [InitWorkers(o.done)]);
    if o.err != 0 then b.(timer := Off, phase := Fault)
    else Autostart(b.(workers := Touch(Touch(o.table, PROCESS_WORKER), LOG_WORKER)), throws)
  }

  function Withdraw(a: Agent): Agent {
    var o := DeinitAll(a.workers);
    var b := a.(retry := 0, phase := Unregistered, workers := o.table,
                log := a.log + [DeinitWorkers(o.done)]);
    if o.err != 0 then b.(ended := true, log := b.log + [Escaped(Chaos(o.err))]) else b
  }

  function Ticked(a: Agent, throws: Throws): Agent {
    match a.phase
    case Unregistered => a.(timer := Off)
    case StartRegistering => Solicit(a.(retry := 0))
    case Registering => Solicit(a)
    case Registered => Enlist(a, throws)
    case StartUnregistering => Withdraw(a)
    case Unregistering => Withdraw(a)
    case Fault => a
  }

  /** A tick of the process worker's own timer, which relaunches dead nodes: a launch that throws
      ends the process. */
  function Respawned(a: Agent, throws: bool): Agent {
    if throws then a.(ended := true, log := a.log + [Escaped(Plain)]) else a
  }

  // ---------------------------------------------------------------- the class

  class Register {
    var phase: Phase
    var retry: nat
    var timer: Timer
    var started: bool
    var ended: bool
    var workers: Table
    var associated: seq<Association>
    var log: seq<Effect>

    function View(): Agent
      reads this
    {
      Agent(phase, retry, timer, started, ended, workers, associated, log)
    }

    constructor ()
      ensures View() == INITIAL
    {
      phase, retry, timer, started, ended := Unregistered, 0, Off, false, false;
      workers, associated, log := Add([], PROCESS_WORKER), [], [];
    }

    method Start()
      modifies this
      ensures View() == Started(old(View()))
    {
      phase := StartRegistering;
      timer := AddTimer(timer);
      started := true;
    }

    method Stop()
      modifies this
      ensures View() == Stopping(old(View()))
    {
      phase := StartUnregistering;
      timer := AddTimer(timer);
      started := false;
    }

    /** The error codes are those of the thrown exceptions. */
    method RegistrationAck(ack: Ack) returns (err: int)
      modifies this
      ensures View() == Acked(old(View()), ack)
      ensures err == match ack case NoContent => -1 case NoUid => -2 case OtherAgent => -3 case _ => 0
      ensures err != 0 || ack.NoResult? ==> View() == old(View())
      ensures ack.Denied? ==> View() == old(View()).(phase := Unregistered)
    {
      if ack.NoContent? { return -1; }
      if ack.NoUid? { return -2; }
      if ack.OtherAgent? { return -3; }
      err := 0;
      if ack.Accepted? {
        phase := Registered;
        log := log + [AckedOk];
        if ack.hasDescription { associated := ack.description; }
      } else if ack.Denied? {
        phase := Unregistered;
      }
    }

    method Timeout(throws: Throws)
      modifies this
      ensures View() == Ticked(old(View()), throws)
    {
      hide Rethrown, FirstThrow, AutoStarted, AutoRespawned, InitAll, DeinitAll, Touch;
      if phase == Unregistered {
        timer := Off;
      } else if phase == StartRegistering || phase == Registering {
        if phase == StartRegistering {
          retry := 0;
          phase := Registering;
        }
        var before := retry;
        retry := (retry + 1) % RETRY_PERIOD;
        if before % MAX_RETRY == 0 { log := log + [SentPack]; }
      } else if phase == Registered {
        var o := RunInit(workers);
        workers, log := o.table, log + [InitWorkers(o.done)];
        if o.err != 0 {
          timer, phase := Off, Fault;
        } else {
          workers := Touch(workers, PROCESS_WORKER);
          workers := Touch(workers, LOG_WORKER);
          var thrown := RunAutostart(throws);
          if thrown.None? {
            timer := Off;
          } else if thrown.value.Chaos? {
            timer, phase := Off, Fault;
          } else {
            ended, log := true, log + [Escaped(thrown.value)];
          }
        }
      } else if phase == StartUnregistering || phase == Unregistering {
        if phase == StartUnregistering { phase := Unregistering; }
        retry := 0;
        phase := Unregistered;
        var o := RunDeinit(workers);
        workers, log := o.table, log + [DeinitWorkers(o.done)];
        if o.err != 0 {
          ended, log := true, log + [Escaped(Chaos(o.err))];
        }
      }
    }

    /** thrown is what a launch threw, which ends the loop. */
    method RunAutostart(throws: Throws) returns (thrown: Option<Thrown>)
      modifies this`log
      ensures var f := FirstThrow(associated, throws, 0);
              && log == old(log) + [Autostarted(AutoStarted(associated[..f]), AutoRespawned(associated[..f]))]
              && thrown == if f == |associated| then None else Some(Rethrown(throws[f]))
    {
      var launched: seq<Association>, respawned: seq<Association> := [], [];
      thrown := None;
      var i := 0;
      while i < |associated| && thrown.None?
        invariant 0 <= i <= |associated|
        invariant launched == AutoStarted(associated[..i])
        invariant respawned == AutoRespawned(associated[..i])
        invariant FirstThrow(associated, throws, i) == FirstThrow(associated, throws, 0)
        invariant thrown.Some? ==> i < |associated| && FirstThrow(associated, throws, 0) == i
                                   && thrown.value == Rethrown(throws[i])
        decreases |associated| - i, thrown.None?
      {
        assert associated[..i + 1][..i] == associated[..i];
        if associated[i].autoStart && i in throws {
          thrown := Some(Rethrown(throws[i]));
        } else {
          if associated[i].autoStart {
            launched := launched + [associated[i]];
            if associated[i].keepAlive { respawned := respawned + [associated[i]]; }
          }
          i := i + 1;
        }
      }
      log := log + [Autostarted(launched, respawned)];
    }
  }

  // ---------------------------------------------------------------- runs

  datatype Event =
    | EStart
    | EStop
    | ETick(throws: Throws)
    | EAck(ack: Ack)
    | ERespawn(throwing: bool)           // a tick of the process worker's timer

  /** start and stop alternate, start after stop has seen the end of the unregistration; acks
      arrive while the action is registered, ticks while the timer is armed, those of the process
      worker while it is initialised, and nothing happens once the process has ended. */
  function Next(a: Agent, e: Event): Option<Agent> {
    if a.ended then None
    else
      match e
      case EStart =>
        if !a.started && (a.phase == Unregistered || a.phase == Fault) then Some(Started(a)) else None
      case EStop => if a.started then Some(Stopping(a)) else None
      case ETick(throws) => if a.timer == Armed then Some(Ticked(a, throws)) else None
      case ERespawn(throwing) =>
        if Row(PROCESS_WORKER, Service(true)) in a.workers then Some(Respawned(a, throwing)) else None
      case EAck(ack) => if a.started then Some(Acked(a, ack)) else None
  }

  function Run(a: Agent, events: seq<Event>): Option<Agent> {
    if events == [] then Some(a)
    else
      var r := Run(a, events[..|events| - 1]);
      if r.None? then None else Next(r.value, events[|events| - 1])
  }

  ghost predicate Reachable(a: Agent) {
    exists events :: Run(INITIAL, events) == Some(a)
  }

  ghost function Is(e: Effect): Effect -> int {
    (x: Effect) => if x == e then 1 else 0
  }

  ghost function IsInit(e: Effect): int { if e.InitWorkers? then 1 else 0 }

  ghost function IsAutostart(e: Effect): int { if e.Autostarted? then 1 else 0 }

  /** Every initialisation is of the process worker, after an accepting acknowledgement, and no
      worker is deinitialised. */
  ghost predicate Orderly(log: seq<Effect>) {
    && (forall i :: 0 <= i < |log| && log[i].InitWorkers? ==>
          log[i].names == [PROCESS_WORKER] && AckedOk in log[..i])
    && (forall i :: 0 <= i < |log| && log[i].DeinitWorkers? ==> log[i].names == [])
  }

  /** Did a session get as far as initialising the workers? */
  predicate InSession(a: Agent) {
    a.workers == SESSION
  }

  ghost predicate Controlled(a: Agent) {
    && a.phase != Unregistering && a.phase != Fault
    && (a.workers == FRESH || a.workers == SESSION)
    && (InSession(a) && a.timer == Armed && !a.ended ==> !a.started)
    && (a.phase == StartUnregistering && !a.ended ==> !a.started && a.timer == Armed)
    && (!a.started && !a.ended && a.phase != StartUnregistering ==>
          a.phase == Unregistered && a.timer == Off && a.workers == FRESH)
  }

  ghost predicate Logged(a: Agent) {
    && Sum(a.log, IsInit) == Sum(a.log, IsAutostart) == (if InSession(a) then 1 else 0)
    && Orderly(a.log)
    && (a.phase == Registered ==> AckedOk in a.log)
  }

  ghost predicate Inv(a: Agent) {
    Controlled(a) && Logged(a)
  }

  lemma ControlledNext(a: Agent, e: Event)
    requires Controlled(a) && Next(a, e).Some?
    ensures Controlled(Next(a, e).value)
  {
    hide InitAll, DeinitAll, Touch;
    LoopsOnTables();
  }

  /** Appending an effect that keeps the log orderly. */
  lemma LogGrows(log: seq<Effect>, x: Effect)
    requires Orderly(log)
    requires x.InitWorkers? ==> x.names == [PROCESS_WORKER] && AckedOk in log
    requires x.DeinitWorkers? ==> x.names == []
    ensures Orderly(log + [x])
    ensures Sum(log + [x], IsInit) == Sum(log, IsInit) + IsInit(x)
    ensures Sum(log + [x], IsAutostart) == Sum(log, IsAutostart) + IsAutostart(x)
  {
    SumPush(log, x, IsInit);
    SumPush(log, x, IsAutostart);
    forall i | 0 <= i < |log + [x]| && (log + [x])[i].InitWorkers?
      ensures (log + [x])[i].names == [PROCESS_WORKER] && AckedOk in (log + [x])[..i]
    {
      assert (log + [x])[..i] == log[..i];
    }
  }

  lemma LoggedEnlist(a: Agent, throws: Throws)
    requires Inv(a) && a.phase == Registered && a.workers == FRESH
    ensures Logged(Enlist(a, throws))
  {
    hide InitAll, DeinitAll, Touch, Orderly, Sum, AutoStarted, AutoRespawned;
    LoopsOnTables();
    var nodes := a.associated[..FirstThrow(a.associated, throws, 0)];
    var auto := Autostarted(AutoStarted(nodes), AutoRespawned(nodes));
    var log := a.log + [InitWorkers([PROCESS_WORKER])];
    LogGrows(a.log, InitWorkers([PROCESS_WORKER]));
    LogGrows(log, auto);
    LogGrows(log + [auto], Escaped(Plain));
  }

  lemma LoggedNext(a: Agent, e: Event)
    requires Inv(a) && Next(a, e).Some?
    ensures Logged(Next(a, e).value)
  {
    hide InitAll, DeinitAll, Touch, Orderly, Sum, Enlist;
    LoopsOnTables();
    match e
    case EAck(_) => LogGrows(a.log, AckedOk);
    case ERespawn(_) => LogGrows(a.log, Escaped(Plain));
    case ETick(throws) =>
      match a.phase {
        case Registered => LoggedEnlist(a, throws);
        case StartUnregistering =>
          LogGrows(a.log, DeinitWorkers([]));
          LogGrows(a.log + [DeinitWorkers([])], Escaped(Chaos(-1)));
          LogGrows(a.log + [DeinitWorkers([])], Escaped(Chaos(-2)));
        case _ => LogGrows(a.log, SentPack);
      }
    case _ =>
  }

  lemma {:induction false} InvRun(a: Agent, events: seq<Event>)
    requires Inv(a) && Run(a, events).Some?
    ensures Inv(Run(a, events).value)
  {
    hide InitAll, DeinitAll, Touch;
    if events != [] {
      var r, e := Run(a, events[..|events| - 1]).value, events[|events| - 1];
      InvRun(a, events[..|events| - 1]);
      ControlledNext(r, e);
      LoggedNext(r, e);
    }
  }

  lemma InitialInv()
    ensures Inv(INITIAL)
  {
    LoopsOnTables();
  }

  lemma ReachableInv(a: Agent)
    requires Reachable(a)
    ensures Inv(a)
  {
    var events :| Run(INITIAL, events) == Some(a);
    InitialInv();
    InvRun(INITIAL, events);
  }

  // ---------------------------------------------------------------- main results

  /** In every run the process worker is initialised and autostart runs at most once, together, and
      only after an accepting acknowledgement; no worker is ever deinitialised. The fault state is
      never reached, since what a launch throws is not what the tick catches. */
  lemma InitialisedOnce(a: Agent)
    requires Reachable(a)
    ensures Sum(a.log, IsInit) == Sum(a.log, IsAutostart) <= 1
    ensures forall i :: 0 <= i < |a.log| && a.log[i].InitWorkers? ==>
              a.log[i].names == [PROCESS_WORKER] && AckedOk in a.log[..i]
    ensures forall i :: 0 <= i < |a.log| && a.log[i].DeinitWorkers? ==> a.log[i].names == []
    ensures a.phase != Fault
  {
    ReachableInv(a);
  }

  /** After stop only ticks can come, and the first of the agent's own ends the process: in a session
      the deinit loop meets the null worker that the lookup of "LogWorker" inserted, before any
      other; without one it meets the process worker, which was never initialised. */
  lemma StopEndsProcess(a: Agent, e: Event, throws: Throws)
    requires Reachable(a) && a.phase == StartUnregistering && !a.ended
    ensures Next(a, e).Some? <==> e.ETick? || (e.ERespawn? && Sum(a.log, IsInit) == 1)
    ensures var b := Ticked(a, throws);
            && b.ended && b.phase == Unregistered && b.workers == a.workers
            && b.log == a.log + [DeinitWorkers([]),
                                 Escaped(Chaos(if Sum(a.log, IsInit) == 1 then -1 else -2))]
  {
    hide InitAll, DeinitAll, Touch;
    ReachableInv(a);
    LoopsOnTables();
    InitialisedTables();
  }

  lemma InitialisedTables()
    ensures Row(PROCESS_WORKER, Service(true)) in SESSION
    ensures Row(PROCESS_WORKER, Service(true)) !in FRESH
  {
    assert SESSION[1] == Row(PROCESS_WORKER, Service(true));
  }

  /** Does this event, in this state, end the process? A tick does after stop, or when it autostarts
      nodes and a launch throws; a tick of the process worker does when a relaunch throws. */
  predicate Kills(a: Agent, e: Event) {
    match e
    case ETick(throws) =>
      || a.phase == StartUnregistering
      || (a.phase == Registered && Throwing(a.associated, throws))
    case ERespawn(throwing) => throwing
    case _ => false
  }

  ghost predicate Stopped(events: seq<Event>) {
    exists i :: 0 <= i < |events| && events[i] == EStop
  }

  /** What the events of a run say about the state it ends in. */
  ghost predicate TellsState(events: seq<Event>, a: Agent) {
    && (!a.ended ==> (a.phase == StartUnregistering <==> Stopped(events)))
    && (!a.started && !a.ended && a.phase != StartUnregistering <==> events == [])
    && (0 < |events| && Stopped(events) && events[|events| - 1].ETick? ==> a.ended)
  }

  /** start comes first and once, and after stop come only ticks of the process worker, until the
      agent's own tick that is the last event. */
  ghost predicate OneLife(events: seq<Event>) {
    && (forall i :: 0 <= i < |events| ==> (events[i] == EStart <==> i == 0))
    && (forall i, k :: 0 <= i < k < |events| && events[i] == EStop ==>
          events[k].ERespawn? || (events[k].ETick? && k == |events| - 1))
  }

  /** Which event can come next, by the kind of state. */
  lemma LifeStep(a: Agent, e: Event)
    requires Controlled(a) && Next(a, e).Some?
    ensures var b := Next(a, e).value;
            && !a.ended && (b.ended <==> Kills(a, e))
            && (e == EStart <==> !a.started && a.phase != StartUnregistering)
            && (a.phase == StartUnregistering ==> e.ETick? || e.ERespawn?)
            && (!b.ended ==> (b.phase == StartUnregistering <==> e == EStop || a.phase == StartUnregistering))
            && (b.started || b.ended || b.phase == StartUnregistering)
  {
    hide InitAll, DeinitAll, Touch, AutoStarted, AutoRespawned;
    LoopsOnTables();
    InitialisedTables();
  }

  lemma LifeGrows(events: seq<Event>, n: nat, a: Agent, b: Agent)
    requires |events| == n + 1 && OneLife(events[..n]) && TellsState(events[..n], a)
    requires Controlled(a) && Next(a, events[n]) == Some(b)
    ensures OneLife(events) && TellsState(events, b)
  {
    hide Next, Controlled;
    var before, e := events[..n], events[n];
    LifeStep(a, e);
    assert Stopped(events) <==> Stopped(before) || e == EStop by {
      if Stopped(before) { var i :| 0 <= i < n && before[i] == EStop; assert events[i] == EStop; }
    }
    forall i, k | 0 <= i < k < |events| && events[i] == EStop
      ensures events[k].ERespawn? || (events[k].ETick? && k == n)
    {
      assert before[i] == EStop;
      if k < n { assert before[k] == events[k]; }
    }
  }

  lemma {:induction false} LifeRun(events: seq<Event>)
    requires Run(INITIAL, events).Some?
    ensures OneLife(events) && TellsState(events, Run(INITIAL, events).value)
  {
    hide Next, OneLife, TellsState;
    InitialInv();
    if events == [] {
      NoLife();
    } else {
      var n := |events| - 1;
      LifeRun(events[..n]);
      InvRun(INITIAL, events[..n]);
      LifeGrows(events, n, Run(INITIAL, events[..n]).value, Run(INITIAL, events).value);
    }
  }

  lemma NoLife()
    ensures OneLife([]) && TellsState([], INITIAL)
  {}

  /** In every run start comes first and once; after stop come only ticks of the process worker, and
      then at most the agent's own tick, as the last event. The process has ended iff the last event
      was one that kills it. */
  lemma OneLifePerProcess(events: seq<Event>)
    requires Run(INITIAL, events).Some?
    ensures forall i :: 0 <= i < |events| ==> (events[i] == EStart <==> i == 0)
    ensures forall i, k :: 0 <= i < k < |events| && events[i] == EStop ==>
              events[k].ERespawn? || (events[k].ETick? && k == |events| - 1)
    ensures Run(INITIAL, events).value.ended <==>
            var n := |events| - 1;
            0 <= n && Run(INITIAL, events[..n]).Some?
            && Kills(Run(INITIAL, events[..n]).value, events[n])
  {
    hide Next, Kills;
    LifeRun(events);
    if events != [] {
      var n := |events| - 1;
      InitialInv();
      InvRun(INITIAL, events[..n]);
      LifeStep(Run(INITIAL, events[..n]).value, events[n]);
    }
  }

  function Ticks(n: nat): (events: seq<Event>)
    ensures |events| == n && forall i :: 0 <= i < n ==> events[i] == ETick(map[])
  {
    seq(n, _ => ETick(map[]))
  }

  /** The i-th unanswered tick sends a pack iff i, in 32 bits, is a multiple of five. */
  lemma TickSends(b: Agent, i: nat)
    requires b.timer == Armed && !b.ended
    requires if i == 0 then b.phase == StartRegistering
             else b.phase == Registering && b.retry == i % RETRY_PERIOD
    ensures var c := Ticked(b, map[]);
            && c.timer == Armed && !c.ended && c.phase == Registering && c.retry == (i + 1) % RETRY_PERIOD
            && Sum(c.log, Is(SentPack)) == Sum(b.log, Is(SentPack))
               + (if Slot(i, RETRY_PERIOD, MAX_RETRY) == 0 then 1 else 0)
  {
    SumPush(b.log, SentPack, Is(SentPack));
    assert (i % RETRY_PERIOD + 1) % RETRY_PERIOD == (i + 1) % RETRY_PERIOD;
  }

  /** n unanswered ticks after a start send as many packs as a 32-bit counter hits a multiple of
      five: ceil(n / 5) until the counter wraps, and exactly Uses(n, 0, 2^32, 5) for ever. */
  lemma {:induction false} UnansweredTicks(a: Agent, n: nat)
    requires a.phase == StartRegistering && a.timer == Armed && !a.ended
    ensures var r := Run(a, Ticks(n));
            && r.Some? && r.value.timer == Armed && !r.value.ended
            && (n > 0 ==> r.value.phase == Registering && r.value.retry == n % RETRY_PERIOD)
            && (n == 0 ==> r.value == a)
            && Sum(r.value.log, Is(SentPack))
               == Sum(a.log, Is(SentPack)) + Uses(n, 0, RETRY_PERIOD, MAX_RETRY)
  {
    if n > 0 {
      UnansweredTicks(a, n - 1);
      assert Ticks(n)[..n - 1] == Ticks(n - 1);
      TickSends(Run(a, Ticks(n - 1)).value, n - 1);
    }
  }

  /** Until the counter wraps, n ticks send ceil(n / 5) packs. */
  lemma PacksSent(n: nat)
    requires n <= RETRY_PERIOD
    ensures Uses(n, 0, RETRY_PERIOD, MAX_RETRY) == (n + 4) / 5
  {
    UsesWithinPeriod(0, n, 0, RETRY_PERIOD, MAX_RETRY);
  }

  /** The launched nodes are the autostart ones of the list, each as often as it occurs there; the
      respawned ones are those among them that are kept alive. */
  lemma {:induction false} AutostartSelects(nodes: seq<Association>, x: Association)
    ensures Sum(AutoStarted(nodes), Same(x)) == if x.autoStart then Sum(nodes, Same(x)) else 0
    ensures Sum(AutoRespawned(nodes), Same(x))
            == if x.autoStart && x.keepAlive then Sum(nodes, Same(x)) else 0
  {
    if nodes != [] {
      var n := |nodes| - 1;
      AutostartSelects(nodes[..n], x);
      assert nodes == nodes[..n] + [nodes[n]];
      assert AutoStarted(nodes[..n]) + [] == AutoStarted(nodes[..n]);
      assert AutoRespawned(nodes[..n]) + [] == AutoRespawned(nodes[..n]);
      SumPush(nodes[..n], nodes[n], Same(x));
      SumPush(AutoStarted(nodes[..n]), nodes[n], Same(x));
      SumPush(AutoRespawned(nodes[..n]), nodes[n], Same(x));
    }
  }

  ghost function Same(x: Association): Association -> int {
    (y: Association) => if y == x then 1 else 0
  }

  /** An accepting acknowledgement of a registering agent and the next tick initialise the workers and
      autostart the nodes of the acknowledged description, or of the one before if the
      acknowledgement has none, up to the first whose launch throws. The
      session is complete, with the timer removed, iff no launch throws; otherwise the process
      ends. */
  lemma AckThenTick(a: Agent, has: bool, description: seq<Association>, throws: Throws)
    requires Reachable(a) && a.started && a.phase == Registering && a.timer == Armed && !a.ended
    ensures var b := Next(a, EAck(Accepted(has, description)));
            && b.Some? && Next(b.value, ETick(throws)).Some?
            && var c := Next(b.value, ETick(throws)).value;
               var all := if has then description else a.associated;
               var nodes := all[..FirstThrow(all, throws, 0)];
               && c.phase == Registered && c.associated == all
               && (c.ended <==> Throwing(all, throws)) && (!c.ended ==> c.timer == Off)
               && c.log == a.log + [AckedOk, InitWorkers([PROCESS_WORKER]),
                                    Autostarted(AutoStarted(nodes), AutoRespawned(nodes))]
                           + (if c.ended then [Escaped(Plain)] else [])
  {
    hide InitAll, DeinitAll, Touch, AutoStarted, AutoRespawned;
    ReachableInv(a);
    LoopsOnTables();
  }

  /** From the first start on, n unanswered ticks send ceil(n / 5) packs until the counter wraps. */
  lemma PacksAfterStart(n: nat)
    requires n <= RETRY_PERIOD
    ensures var b := Next(INITIAL, EStart);
            && b.Some? && Run(b.value, Ticks(n)).Some?
            && Sum(Run(b.value, Ticks(n)).value.log, Is(SentPack)) == (n + 4) / 5
  {
    UnansweredTicks(Started(INITIAL), n);
    PacksSent(n);
  }

  // ---------------------------------------------------------------- after a refusal

  /** No acknowledgement among the events accepts the agent. */
  ghost predicate NeverAccepted(events: seq<Event>) {
    forall i :: 0 <= i < |events| && events[i].EAck? ==> !events[i].ack.Accepted?
  }

  ghost predicate HasTick(events: seq<Event>) {
    exists i :: 0 <= i < |events| && events[i].ETick?
  }

  /** Refused and waiting, or past that through stop. */
  predicate Refused(a: Agent) {
    || a.ended
    || (a.phase == Unregistered && a.started)
    || a.phase == StartUnregistering
  }

  lemma RefusedNext(a: Agent, e: Event)
    requires Controlled(a) && Refused(a) && Next(a, e).Some?
    requires e.EAck? ==> !e.ack.Accepted?
    ensures var b := Next(a, e).value;
            && Refused(b) && Sum(b.log, Is(SentPack)) == Sum(a.log, Is(SentPack))
            && (a.phase == Unregistered && a.started && e != EStop ==>
                  && b.phase == Unregistered && b.started
                  && b.timer == if e.ETick? then Off else a.timer)
  {
    hide InitAll, DeinitAll, Touch;
    LoopsOnTables();
    SumPush(a.log, Escaped(Plain), Is(SentPack));
    SumPush(a.log, DeinitWorkers([]), Is(SentPack));
    SumPush(a.log + [DeinitWorkers([])], Escaped(Chaos(-1)), Is(SentPack));
    SumPush(a.log + [DeinitWorkers([])], Escaped(Chaos(-2)), Is(SentPack));
  }

  lemma {:induction false} RefusedRun(a: Agent, events: seq<Event>)
    requires Inv(a) && Refused(a) && NeverAccepted(events) && Run(a, events).Some?
    ensures var c := Run(a, events).value;
            && Refused(c) && Sum(c.log, Is(SentPack)) == Sum(a.log, Is(SentPack))
            && (a.phase == Unregistered && a.started && !Stopped(events) ==>
                  && c.phase == Unregistered && c.started
                  && c.timer == if HasTick(events) then Off else a.timer)
  {
    hide Next, Sum, Refused, Logged;
    if events != [] {
      var n := |events| - 1;
      var init, e := events[..n], events[n];
      RefusedRun(a, init);
      InvRun(a, init);
      RefusedNext(Run(a, init).value, e);
      StopsAndTicks(events);
    }
  }

  lemma StopsAndTicks(events: seq<Event>)
    requires events != []
    ensures var n := |events| - 1;
            && (Stopped(events) <==> Stopped(events[..n]) || events[n] == EStop)
            && (HasTick(events) <==> HasTick(events[..n]) || events[n].ETick?)
  {
    var init := events[..|events| - 1];
    if Stopped(init) { var i :| 0 <= i < |init| && init[i] == EStop; assert events[i] == EStop; }
    if HasTick(init) { var i :| 0 <= i < |init| && init[i].ETick?; assert events[i].ETick?; }
  }

  /** A denying acknowledgement makes the agent give up: until one accepts it, it sends no further
      pack, whatever else happens. Unless it is stopped it stays unregistered, its next own tick
      removes the timer, and after that it does not tick again. */
  lemma DeniedGivesUp(a: Agent, events: seq<Event>)
    requires Reachable(a) && a.started && !a.ended && NeverAccepted(events)
    ensures Next(a, EAck(Denied)).Some?
    ensures var b := Next(a, EAck(Denied)).value;
            Run(b, events).Some? ==>
              var c := Run(b, events).value;
              && Sum(c.log, Is(SentPack)) == Sum(a.log, Is(SentPack))
              && (!Stopped(events) ==>
                    && c.phase == Unregistered && c.started
                    && (HasTick(events) ==> c.timer == Off && forall t :: Next(c, ETick(t)).None?))
  {
    hide InitAll, DeinitAll, Touch, Logged;
    ReachableInv(a);
    var b := Next(a, EAck(Denied)).value;
    ControlledNext(a, EAck(Denied));
    LoggedNext(a, EAck(Denied));
    if Run(b, events).Some? { RefusedRun(b, events); }
  }
}
