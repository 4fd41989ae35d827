/** The agent's process worker: launching, stopping and restarting nodes, and the map of nodes
that its timer keeps alive.

The process manager is an oracle: each check of a process is an answer that the environment gives,
and so is whether a launch throws; it then throws a plain exception, whatever went wrong inside.
The handlers run concurrently with the timer, so a run is a sequence of the atomic steps they are
made of (`Step`), in any order; each method of the class says which steps it performs. */
module ProcessWorker {
  import opened Names

  /** A node that the agent looks after. */
  datatype Association = Association(
    uid: string, processId: string, autoStart: bool, keepAlive: bool)

  type RespawnMap = map<string, Association>

  datatype Step =
    | Launch(a: Association)            // launchNode, or the autostart of the agent
    | Quit(a: Association)              // stopNode or restartNode quits the process
    | Remove(uid: string)               // removeToRespawn
    | Relaunch(a: Association)          // the end of restartNode
    | Tick(dead: set<string>)           // the timer finds these nodes dead

  /** The effect of a step on the respawn map. */
  function Apply(m: RespawnMap, s: Step): RespawnMap {
    match s
    case Launch(a) => if a.keepAlive then m[a.uid := a] else m
    case Relaunch(a) => if a.keepAlive then m[a.uid := a] else m
    case Remove(uid) => m - {uid}
    case Quit(_) => m
    case Tick(_) => m
  }

  function Replay(m: RespawnMap, h: seq<Step>): RespawnMap {
    if h == [] then m else Apply(Replay(m, h[..|h| - 1]), h[|h| - 1])
  }

  /** The nodes a step of the timer launches. */
  function Respawned(m: RespawnMap, s: Step): set<string> {
    if s.Tick? then set uid | uid in m && uid in s.dead else {}
  }

  // ---------------------------------------------------------------- the class

  datatype Request =
    | NoContent | NoName | NameNotText | ConfigurationNotText
    | Node(a: Association)

  class Worker {
    var respawn: RespawnMap
    var launched: seq<Association>      // calls of launchProcess that returned
    var quits: nat                      // calls of quitProcess

    constructor ()
      ensures respawn == map[] && launched == [] && quits == 0
    {
      respawn, launched, quits := map[], [], 0;
    }

    method AddToRespawn(a: Association)
      modifies this`respawn
      ensures respawn == old(respawn)[a.uid := a]
    {
      respawn := respawn[a.uid := a];
    }

    method RemoveToRespawn(uid: string)
      modifies this`respawn
      ensures respawn == Apply(old(respawn), Remove(uid))
    {
      respawn := respawn - {uid};
    }

    /** A launch that throws leaves the handler before the node joins the map. */
    method LaunchNode(request: Request, alive: bool, throws: bool) returns (err: int, escaped: bool)
      modifies this
      ensures err == match request
                     case NoContent => -1 case NoName => -2
                     case NameNotText => -3 case ConfigurationNotText => -3 case Node(_) => 0
      ensures escaped <==> request.Node? && !alive && throws
      ensures !request.Node? || escaped ==> respawn == old(respawn) && launched == old(launched)
      ensures request.Node? && !escaped ==>
                && respawn == Replay(old(respawn), [Launch(request.a)])
                && launched == if alive then old(launched) else old(launched) + [request.a]
      ensures quits == old(quits)
    {
      escaped := false;
      if request.NoContent? { return -1, false; }
      if request.NoName? { return -2, false; }
      if !request.Node? { return -3, false; }
      err := 0;
      if !alive {
        if throws { return 0, true; }
        launched := launched + [request.a];
      }
      if request.a.keepAlive { AddToRespawn(request.a); }
      ReplayShort(old(respawn), Launch(request.a), Launch(request.a));
    }

    /** Quitting comes before removing: a tick in between may launch the node again. */
    method StopNode(a: Association, alive: bool)
      modifies this
      ensures respawn == Replay(old(respawn), [Quit(a), Remove(a.uid)])
      ensures a.uid !in respawn && launched == old(launched)
      ensures quits == old(quits) + if alive then 1 else 0
    {
      if alive { quits := quits + 1; }
      RemoveToRespawn(a.uid);
      ReplayShort(old(respawn), Quit(a), Remove(a.uid));
    }

    /** answer(i) is what the i-th check of the process reads. */
    method RestartNode(a: Association, answer: nat -> bool, throws: bool)
      returns (relaunched: bool, escaped: bool, checks: nat, rounds: nat)
      modifies this
      ensures rounds <= 5 && 2 <= checks <= 8
      ensures relaunched || escaped <==> !answer(checks - 1)
      ensures relaunched || escaped <==> Relaunches(answer)
      ensures if relaunched then !throws else escaped ==> throws
      ensures respawn == Replay(old(respawn), if relaunched then [Remove(a.uid), Relaunch(a)]
                                              else [Remove(a.uid)])
      ensures a.uid in respawn <==> relaunched && a.keepAlive
      ensures launched == if relaunched then old(launched) + [a] else old(launched)
      ensures quits == old(quits) + (if !answer(0) then 0 else if rounds == 5 then 2 else 1)
    {
      var tryToStop, retry, processAlive := true, 0, false;
      relaunched, escaped, checks, rounds := false, false, 0, 0;
      RemoveToRespawn(a.uid);
      processAlive := answer(0);
      checks := 1;
      if processAlive {
        quits := quits + 1;
        processAlive := answer(1);
        checks := 2;
        while !processAlive && tryToStop
          invariant 0 <= rounds <= 5 && checks == rounds + 2 && retry == rounds
          invariant tryToStop <==> rounds < 5
          invariant quits == old(quits) + if rounds == 5 then 2 else 1
          invariant processAlive <==> answer(checks - 1)
          invariant forall i :: 1 <= i <= rounds ==> !answer(i)
          invariant respawn == Apply(old(respawn), Remove(a.uid)) && launched == old(launched)
          decreases 5 - rounds
        {
          retry := retry + 1;
          if retry - 1 > 3 {
            tryToStop := false;
            quits := quits + 1;
          }
          rounds := rounds + 1;
          processAlive := answer(checks);
          checks := checks + 1;
        }
      }
      if !processAlive {
        processAlive := answer(checks);
        checks := checks + 1;
      }
      ReplayShort(old(respawn), Remove(a.uid), Relaunch(a));
      if !processAlive {
        if throws {
          escaped := true;
          return;
        }
        relaunched := true;
        launched := launched + [a];
        if a.keepAlive { AddToRespawn(a); }
      }
    }

    /** The members of the map found dead are launched once each, in the order of their names, up to
        the first whose launch throws; now lists them. */
    method Timeout(check: Association -> bool, throws: Association -> bool)
      returns (now: seq<string>, escaped: bool)
      modifies this`launched
      ensures forall i, j :: 0 <= i < j < |now| ==> now[i] != now[j]
      ensures |launched| == |old(launched)| + |now| && old(launched) <= launched
      ensures forall i :: 0 <= i < |now| ==>
                now[i] in respawn && launched[|old(launched)| + i] == respawn[now[i]]
      ensures escaped <==> exists uid :: uid in Dead(respawn, check) && throws(respawn[uid])
      ensures !escaped ==>
                (set uid | uid in now) == Respawned(respawn, Tick(Dead(respawn, check))) == Dead(respawn, check)
      ensures escaped ==>
                exists uid :: uid in Dead(respawn, check) && throws(respawn[uid])
                              && forall v :: v in now <==> v in Dead(respawn, check) && Less(v, uid)
    {
      hide Less;
      now := [];
      var left := respawn.Keys;
      while left != {}
        invariant left <= respawn.Keys
        invariant |launched| == |old(launched)| + |now| && old(launched) <= launched
        invariant forall i :: 0 <= i < |now| ==>
                    now[i] in respawn && launched[|old(launched)| + i] == respawn[now[i]]
        invariant forall u, v :: u in respawn && u !in left && v in left ==> Less(u, v)
        invariant forall uid :: uid in now <==> uid in Dead(respawn, check) && uid !in left
        invariant forall uid :: uid in now ==> !throws(respawn[uid])
        invariant forall i, j :: 0 <= i < j < |now| ==> now[i] != now[j]
        decreases left
      {
        ghost var first := FirstExists(left);
        var uid :| uid in left && IsFirst(uid, left);
        FirstBefore(uid, left);
        LessTotal(uid, uid);
        if !check(respawn[uid]) {
          if throws(respawn[uid]) {
            forall v | v in Dead(respawn, check) ensures v in now <==> Less(v, uid) {
              LessTotal(v, uid);
            }
            return now, true;
          }
          now := now + [uid];
          launched := launched + [respawn[uid]];
        }
        left := left - {uid};
      }
      escaped := false;
    }
  }

  function Dead(m: RespawnMap, check: Association -> bool): set<string> {
    set uid | uid in m && !check(m[uid])
  }

  lemma ReplayShort(m: RespawnMap, x: Step, y: Step)
    ensures Replay(m, [x]) == Apply(m, x)
    ensures Replay(m, [x, y]) == Apply(Apply(m, x), y)
  {
    assert [x][..0] == [] && [x, y][..1] == [x];
  }

  /** restartNode relaunches iff the process is down at two checks in a row, or was up, was quit
      and then is down at seven checks in a row: the wait loop runs while the process is not alive,
      so a process that has not died by the first check after the quit is given up. */
  predicate Relaunches(answer: nat -> bool) {
    if !answer(0) then !answer(1)
    else forall i :: 1 <= i <= 7 ==> !answer(i)
  }

  // ---------------------------------------------------------------- every history

  predicate Adds(s: Step, uid: string) {
    (s.Launch? || s.Relaunch?) && s.a.keepAlive && s.a.uid == uid
  }

  predicate Removes(s: Step, uid: string) {
    s == Remove(uid)
  }

  /** The i-th step adds uid and no later step adds or removes it. */
  ghost predicate LastWordAdds(h: seq<Step>, uid: string, i: nat) {
    && i < |h| && Adds(h[i], uid)
    && forall k :: i < k < |h| ==> !Adds(h[k], uid) && !Removes(h[k], uid)
  }

  lemma LastWordGrows(h: seq<Step>, uid: string, i: nat)
    requires 0 < |h| && i < |h| - 1 && !Adds(h[|h| - 1], uid) && !Removes(h[|h| - 1], uid)
    ensures LastWordAdds(h[..|h| - 1], uid, i) <==> LastWordAdds(h, uid, i)
  {
    var g := h[..|h| - 1];
    assert forall k :: 0 <= k < |g| ==> g[k] == h[k];
  }

  /** The respawn map is a function of the history: uid is in it, with the association of its
      latest adding step, iff no step has removed it since. */
  lemma {:induction false} MapIsLastWord(h: seq<Step>, uid: string)
    ensures uid in Replay(map[], h) <==> exists i: nat :: LastWordAdds(h, uid, i)
    ensures uid in Replay(map[], h) ==>
              exists i: nat :: LastWordAdds(h, uid, i) && Replay(map[], h)[uid] == h[i].a
  {
    if h != [] {
      var n := |h| - 1;
      var g, s := h[..n], h[n];
      MapIsLastWord(g, uid);
      if Adds(s, uid) {
        assert LastWordAdds(h, uid, n);
      } else if !Removes(s, uid) {
        forall i: nat | i < n ensures LastWordAdds(g, uid, i) <==> LastWordAdds(h, uid, i) {
          LastWordGrows(h, uid, i);
        }
        if uid in Replay(map[], g) {
          var i: nat :| LastWordAdds(g, uid, i) && Replay(map[], g)[uid] == g[i].a;
          assert LastWordAdds(h, uid, i) && h[i] == g[i];
        }
      }
    }
  }

  /** After a step that removed uid, no tick launches it until some step adds it again. */
  lemma NoRespawnAfterRemove(h: seq<Step>, i: nat, dead: set<string>, uid: string)
    requires i < |h| && Removes(h[i], uid)
    requires forall k :: i < k < |h| ==> !Adds(h[k], uid)
    ensures uid !in Respawned(Replay(map[], h), Tick(dead))
  {
    MapIsLastWord(h, uid);
  }

  /** A stop is not atomic: the tick between its two steps launches the node it is stopping. */
  lemma TickDuringStop(a: Association)
    requires a.keepAlive
    ensures a.uid in Respawned(Replay(map[], [Launch(a), Quit(a)]), Tick({a.uid}))
    ensures a.uid !in Replay(map[], [Launch(a), Quit(a), Tick({a.uid}), Remove(a.uid)])
  {
    ReplayShort(map[], Launch(a), Quit(a));
    var h := [Launch(a), Quit(a), Tick({a.uid}), Remove(a.uid)];
    assert Replay(map[], h) == Apply(Replay(map[], h[..3]), h[3]);
  }
}
