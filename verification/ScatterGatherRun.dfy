/** The scatter-gather program does finish: an execution with one shard, from the start to the printed total. */
module ScatterGatherRun {
  import opened Prelude
  import opened Mailboxes
  import opened ActorTree
  import opened ScatterGather

  /** An execution of the program leads to this state. */
  ghost predicate Reaches(shards: seq<Shard>, p: Program) {
    exists run: seq<Program>, acts: seq<Action> :: IsExecution(shards, run, acts) && run[|acts|] == p
  }

  lemma Extend(shards: seq<Shard>, p: Program, act: Action) returns (p': Program)
    requires Reaches(shards, p) && Enabled(p.sys, act) && Allowed(shards, p, act)
    ensures p' == After(shards, p, act) && Reaches(shards, p')
  {
    var run: seq<Program>, acts: seq<Action> :| IsExecution(shards, run, acts) && run[|acts|] == p;
    p' := After(shards, p, act);
    var run', acts' := run + [p'], acts + [act];
    assert IsExecution(shards, run', acts');
    assert run'[|acts'|] == p';
  }

  const GATHERER: nat := 0
  const WORKER: nat := 1

  /** The two actors of the execution. */
  ghost predicate Pair(p: Program, g: Actor, x: Actor) {
    && p.sys.root == GATHERER && p.sys.actors.Keys == {GATHERER, WORKER} && p.workers == [WORKER]
    && p.sys.actors[GATHERER] == g && p.sys.actors[WORKER] == x
    && x.parent == Some(GATHERER) && g.parent.None?
  }

  /** A step of the worker's own task. */
  lemma WorkerMoves(shards: seq<Shard>, p: Program, g: Actor, x: Actor, own: OwnAction) returns (p': Program)
    requires Reaches(shards, p) && Pair(p, g, x)
    requires CanOwn(p.sys, WORKER, own) && WorkerMay(p, WORKER, g, own)
    ensures Reaches(shards, p') && Pair(p', g, AfterOwn(x, own)) && p' == p.(sys := p'.sys)
  {
    p' := Extend(shards, p, Own(WORKER, own));
  }

  /** A step of the gatherer's own task that receives nothing. */
  lemma GathererMoves(shards: seq<Shard>, p: Program, g: Actor, x: Actor, own: OwnAction) returns (p': Program)
    requires Reaches(shards, p) && Pair(p, g, x) && !own.Take?
    requires CanOwn(p.sys, GATHERER, own) && GathererMay(shards, p, g, own)
    ensures Reaches(shards, p') && Pair(p', AfterOwn(g, own), x)
    ensures p' == p.(sys := p'.sys,
                     remaining := if own.InitDone? then |shards| else p.remaining,
                     total := if own.InitDone? then 0 else p.total)
  {
    p' := Extend(shards, p, Own(GATHERER, own));
  }

  /** The gatherer receives what is next in its mailbox. */
  lemma GathererTakes(shards: seq<Shard>, p: Program, g: Actor, x: Actor) returns (p': Program)
    requires Reaches(shards, p) && Pair(p, g, x) && CanOwn(p.sys, GATHERER, Take)
    ensures Reaches(shards, p') && Pair(p', Taken(g), x)
    ensures p' == Received(p, g.log[g.taken], g.watched).(sys := p'.sys)
  {
    p' := Extend(shards, p, Own(GATHERER, Take));
    TakeIsReceived(shards, p);
  }

  function First(shard: Shard): Item {
    Reply([shard], WORKER, 0)
  }

  lemma BeginReached(shards: seq<Shard>, p: Program)
    requires Begins(p)
    ensures Reaches(shards, p)
  {
    assert IsExecution(shards, [p], []);
  }

  /** The gatherer's `init` spawns the worker. */
  lemma Spawns(shard: Shard) returns (p: Program, g: Actor, x: Actor)
    ensures Reaches([shard], p) && Pair(p, g, x) && p == Program(p.sys, [WORKER], Watching, {}, 0, 0, {}, {}, false)
    ensures g == Newborn(None, 0, 0) && x == Newborn(Some(GATHERER), 0, 1)
  {
    g, x := Newborn(None, 0, 0), Newborn(Some(GATHERER), 0, 1);
    var s := System(map[GATHERER := g], GATHERER, Unregistered);
    var p0 := Program(s, [], Spawning, {}, 0, 0, {}, {}, false);
    BeginReached([shard], p0);
    p := Extend([shard], p0, Spawn(GATHERER, WORKER));
    assert p.sys.actors == map[GATHERER := g, WORKER := x];
    assert p.workers == [WORKER];
  }

  /** It registers with it. */
  lemma Registers(shard: Shard) returns (p: Program, g: Actor, x: Actor)
    ensures Reaches([shard], p) && Pair(p, g, x) && p == Program(p.sys, [WORKER], Telling, {}, 0, 0, {}, {}, false)
    ensures g == Newborn(None, 0, 0).(call := WatchAdded(WORKER, true))
    ensures x == Newborn(Some(GATHERER), 0, 1).(registry := Some({ActorWatcher(GATHERER)}))
  {
    var p0, g0, x0 := Spawns(shard);
    assert Added(x0.registry, ActorWatcher(GATHERER)) == Some({ActorWatcher(GATHERER)}) by {
      assert {} + {ActorWatcher(GATHERER)} == {ActorWatcher(GATHERER)};
    }
    p := Extend([shard], p0, WatchAdd(GATHERER, WORKER));
    g, x := p.sys.actors[GATHERER], p.sys.actors[WORKER];
  }

  /** The rest of `init`: the watch is complete and the worker is told its shard. */
  lemma Tells(shard: Shard) returns (p: Program, g: Actor, x: Actor)
    ensures Reaches([shard], p) && Pair(p, g, x) && p == Program(p.sys, [WORKER], Spawning, {}, 1, 0, {}, {}, false)
    ensures g == Newborn(None, 0, 0).(phase := Waiting, watched := {WORKER})
    ensures x == Newborn(Some(GATHERER), 0, 1).(registry := Some({ActorWatcher(GATHERER)}),
                                                log := [Message(Some(GATHERER), 0)])
  {
    var p0, g0, x0 := Registers(shard);
    var p1 := GathererMoves([shard], p0, g0, x0, WatchInsert);
    var g1 := AfterOwn(g0, WatchInsert);
    var p2 := Extend([shard], p1, Send(GATHERER, WORKER, 0));
    var x2 := p2.sys.actors[WORKER];
    p := GathererMoves([shard], p2, g1, x2, InitDone);
    g, x := AfterOwn(g1, InitDone), x2;
  }

  /** The worker receives its shard and replies. */
  lemma Computes(shard: Shard) returns (p: Program, g: Actor, x: Actor)
    ensures Reaches([shard], p) && Pair(p, g, x)
    ensures p == Program(p.sys, [WORKER], Spawning, {WORKER}, 1, 0, {}, {}, false)
    ensures g == Newborn(None, 0, 0).(phase := Waiting, watched := {WORKER}, log := [First(shard)])
    ensures x == Newborn(Some(GATHERER), 0, 1).(registry := Some({ActorWatcher(GATHERER)}), phase := Receiving,
                                                log := [Message(Some(GATHERER), 0)], taken := 1)
  {
    var p0, g0, x0 := Tells(shard);
    var p1 := WorkerMoves([shard], p0, g0, x0, InitDone);
    var x1 := AfterOwn(x0, InitDone);
    var p2 := WorkerMoves([shard], p1, g0, x1, Take);
    var x2 := AfterOwn(x1, Take);
    p := Extend([shard], p2, Send(WORKER, GATHERER, First(shard).body));
    g, x := p.sys.actors[GATHERER], x2;
  }

  /** The worker stops: it drains its mailbox and disconnects it. */
  lemma Disconnects(shard: Shard) returns (p: Program, g: Actor, x: Actor)
    ensures Reaches([shard], p) && Pair(p, g, x)
    ensures p == Program(p.sys, [WORKER], Spawning, {WORKER}, 1, 0, {}, {}, false)
    ensures g == Newborn(None, 0, 0).(phase := Waiting, watched := {WORKER}, log := [First(shard)])
    ensures x.phase == Deregistering({}) && x.registry == Some({ActorWatcher(GATHERER)})
  {
    var p0, g0, x0 := Computes(shard);
    g := g0;
    var p1 := WorkerMoves([shard], p0, g, x0, Terminate);
    var x1 := AfterOwn(x0, Terminate);
    p := WorkerMoves([shard], p1, g, x1, Disconnect);
    x := AfterOwn(x1, Disconnect);
  }

  /** It has no children to wait for and takes its watchers. */
  lemma Closes(shard: Shard) returns (p: Program, g: Actor, x: Actor)
    ensures Reaches([shard], p) && Pair(p, g, x)
    ensures p == Program(p.sys, [WORKER], Spawning, {WORKER}, 1, 0, {}, {}, false)
    ensures g == Newborn(None, 0, 0).(phase := Waiting, watched := {WORKER}, log := [First(shard)])
    ensures x.phase == Signaling({ActorWatcher(GATHERER)})
  {
    var p2, g0, x2 := Disconnects(shard);
    g := g0;
    var p3 := WorkerMoves([shard], p2, g, x2, StopChildren);
    var x3 := AfterOwn(x2, StopChildren);
    assert forall c | ChildOf(p3.sys, c, WORKER) :: c in {GATHERER, WORKER};
    var p4 := WorkerMoves([shard], p3, g, x3, ChildrenGone);
    var x4 := AfterOwn(x3, ChildrenGone);
    p := WorkerMoves([shard], p4, g, x4, TakeWatchers);
    x := AfterOwn(x4, TakeWatchers);
  }

  /** It tells the gatherer. */
  lemma Signals(shard: Shard) returns (p: Program, g: Actor, x: Actor)
    ensures Reaches([shard], p) && Pair(p, g, x)
    ensures p == Program(p.sys, [WORKER], Spawning, {WORKER}, 1, 0, {}, {}, false)
    ensures g == Newborn(None, 0, 0).(phase := Waiting, watched := {WORKER}, log := [First(shard), Terminated(WORKER)])
  {
    var p0, g0, x0 := Closes(shard);
    p := Extend([shard], p0, Signal(WORKER, ActorWatcher(GATHERER)));
    g, x := p.sys.actors[GATHERER], p.sys.actors[WORKER];
  }

  /** The gatherer adds the result. */
  lemma Adds(shard: Shard) returns (p: Program, g: Actor, x: Actor)
    ensures Reaches([shard], p) && Pair(p, g, x)
    ensures p == Program(p.sys, [WORKER], Spawning, {WORKER}, 1, Wrap(First(shard).body), {WORKER}, {}, false)
    ensures g == Newborn(None, 0, 0).(phase := Waiting, watched := {WORKER},
                                      log := [First(shard), Terminated(WORKER)], taken := 1)
  {
    var p0, g0, x0 := Signals(shard);
    x := x0;
    var p1 := GathererTakes([shard], p0, g0, x);
    var g1 := Taken(g0);
    p := GathererMoves([shard], p1, g1, x, ReceiveDone);
    g := AfterOwn(g1, ReceiveDone);
  }

  /** It handles the signal and is done, with the shard's sum as its total. */
  lemma OneShardCompletes(shard: Shard) returns (p: Program)
    ensures Reaches([shard], p) && p.done && p.total == Wrap(RangeSum(shard.start, shard.end))
  {
    var p0, g, x := Adds(shard);
    p := GathererTakes([shard], p0, g, x);
  }
}
