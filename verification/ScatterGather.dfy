/**
 * The scatter-gather example as a program on the actor system: every run of `ActorTree` in which the
 * gatherer and its workers do what their code says. The gatherer spawns, watches and tells one
 * worker per shard; each worker replies its partial sum and stops. Sums are 64-bit and wrap.
 */
module ScatterGather {
  import opened Prelude
  import opened Mailboxes
  import opened ActorTree
  import opened DeathWatch

  const TWO_64: nat := 0x1_0000_0000_0000_0000

  datatype Shard = Shard(start: nat, end: nat)

  /** Where the gatherer's `init` is in its loop body. */
  datatype Stage = Spawning | Watching | Telling

  /**
   * The actor system and what the program's own state adds: the workers spawned so far, those that
   * replied, and the gatherer's state. `added` and `handled` record whose partial result and whose
   * signal the gatherer has received; `done` is its decision to stop.
   */
  datatype Program = Program(
    sys: System,
    workers: seq<nat>,
    stage: Stage,
    replied: set<nat>,
    remaining: int,
    total: nat,
    added: set<nat>,
    handled: set<nat>,
    done: bool)

  function Wrap(n: nat): nat {
    n % TWO_64
  }

  function RangeSum(start: nat, end: nat): nat
    decreases end - start
  {
    if start >= end then 0 else start + RangeSum(start + 1, end)
  }

  /** What the worker for a shard replies. */
  function Reply(shards: seq<Shard>, x: nat, i: nat): Item
    requires i < |shards|
  {
    Message(Some(x), Wrap(RangeSum(shards[i].start, shards[i].end)))
  }

  // ----- what the code allows

  predicate GathererMay(shards: seq<Shard>, p: Program, a: Actor, own: OwnAction) {
    match own
    case InitDone => p.stage.Spawning? && |p.workers| == |shards|
    case ReceiveDone => !p.done
    case Terminate => a.phase.Waiting? || p.done
    case UnwatchRemove(_) => false
    case Restart => false
    case _ => true
  }

  /** A worker stops on its own behind its reply, or because its parent does. */
  predicate WorkerMay(p: Program, x: nat, gatherer: Actor, own: OwnAction) {
    match own
    case ReceiveDone => false
    case Terminate => x in p.replied || !Running(gatherer.phase)
    case UnwatchRemove(_) => false
    case Restart => false
    case _ => true
  }

  /** The worker has received its request and replies to it, once. */
  predicate Replies(shards: seq<Shard>, p: Program, x: nat, a: Actor, to: nat, body: nat) {
    && a.phase.Receiving? && x !in p.replied && to == p.sys.root
    && 0 < a.taken <= |a.log| && a.log[a.taken - 1].Message?
    && var i := a.log[a.taken - 1].body;
    i < |shards| && Message(Some(x), body) == Reply(shards, x, i)
  }

  predicate Allowed(shards: seq<Shard>, p: Program, act: Action) {
    && p.sys.root in p.sys.actors
    && var g := p.sys.actors[p.sys.root];
    match act
    case Own(w, own) => if w == p.sys.root then GathererMay(shards, p, g, own) else WorkerMay(p, w, g, own)
    case Spawn(w, _) => w == p.sys.root && g.phase.Initializing? && p.stage.Spawning? && |p.workers| < |shards|
    case WatchAdd(w, t) =>
      && w == p.sys.root && g.phase.Initializing? && p.stage.Watching?
      && p.workers != [] && t == p.workers[|p.workers| - 1]
    case Send(w, to, body) =>
      if w == p.sys.root then
        && g.phase.Initializing? && g.call.NoCall? && p.stage.Telling?
        && p.workers != [] && to == p.workers[|p.workers| - 1] && body == |p.workers| - 1
      else w in p.sys.actors && Replies(shards, p, w, p.sys.actors[w], to, body)
    case SendFromOutside(_, _) => false
    case UnwatchDeregister(_) => false
    case _ => true
  }

  /** The gatherer's `receive`. */
  function Received(p: Program, item: Item, watched: set<nat>): Program {
    match item
    case Message(from, body) =>
      p.(total := Wrap(p.total + body), added := if from.Some? then p.added + {from.value} else p.added)
    case Terminated(t) =>
      if t in watched then
        p.(remaining := p.remaining - 1, handled := p.handled + {t}, done := p.remaining - 1 <= 0)
      else p
  }

  ghost function After(shards: seq<Shard>, p: Program, act: Action): Program
    requires Enabled(p.sys, act) && Allowed(shards, p, act)
  {
    var p1 := p.(sys := Next(p.sys, act));
    match act
    case Own(w, own) =>
      if w == p.sys.root && own.InitDone? then p1.(remaining := |shards|, total := 0)
      else if w == p.sys.root && own.Take? then
        Received(p1, p.sys.actors[w].log[p.sys.actors[w].taken], p.sys.actors[w].watched)
      else p1
    case Spawn(_, child) => p1.(workers := p.workers + [child], stage := Watching)
    case WatchAdd(_, _) => p1.(stage := Telling)
    case Send(w, _, _) => if w == p.sys.root then p1.(stage := Spawning) else p1.(replied := p.replied + {w})
    case _ => p1
  }

  ghost predicate Begins(p: Program) {
    Start(p.sys) && p == Program(p.sys, [], Spawning, {}, 0, 0, {}, {}, false)
  }

  ghost predicate IsExecution(shards: seq<Shard>, run: seq<Program>, acts: seq<Action>) {
    && |run| == |acts| + 1
    && Begins(run[0])
    && forall k | 0 <= k < |acts| ::
         && Enabled(run[k].sys, acts[k]) && Allowed(shards, run[k], acts[k])
         && run[k + 1] == After(shards, run[k], acts[k])
  }

  /** The actor system under the program. */
  ghost function Systems(run: seq<Program>): seq<System> {
    seq(|run|, k requires 0 <= k < |run| => run[k].sys)
  }

  lemma SystemsRun(shards: seq<Shard>, run: seq<Program>, acts: seq<Action>)
    requires IsExecution(shards, run, acts)
    ensures IsRun(Systems(run), acts)
  {
  }

  // ----- sums

  ghost function SumOf(shards: seq<Shard>, workers: seq<nat>, chosen: set<nat>): nat
    requires |workers| <= |shards|
  {
    if workers == [] then 0
    else
      var last := |workers| - 1;
      SumOf(shards, workers[..last], chosen) +
      if workers[last] in chosen then RangeSum(shards[last].start, shards[last].end) else 0
  }

  /** The sum over all shards. */
  ghost function Total(shards: seq<Shard>): nat {
    if shards == [] then 0
    else Total(shards[..|shards| - 1]) + RangeSum(shards[|shards| - 1].start, shards[|shards| - 1].end)
  }

  /** The sum of a range, in closed form. */
  lemma {:induction false} RangeSumClosed(start: nat, end: nat)
    ensures 2 * RangeSum(start, end) == if start < end then (end - start) * (start + end - 1) else 0
    decreases end - start
  {
    if start < end {
      RangeSumClosed(start + 1, end);
      OneMore(end - start - 1, start);
    }
  }

  lemma OneMore(n: nat, start: nat)
    ensures (n + 1) * (2 * start + n) == n * (2 * start + n + 1) + 2 * start
  {
  }

  ghost predicate Distinct(workers: seq<nat>) {
    forall i, j | 0 <= i < j < |workers| :: workers[i] != workers[j]
  }

  lemma {:induction false} ChoosingAdds(shards: seq<Shard>, workers: seq<nat>, chosen: set<nat>, i: nat)
    requires i < |workers| <= |shards| && Distinct(workers) && workers[i] !in chosen
    ensures SumOf(shards, workers, chosen + {workers[i]}) ==
      SumOf(shards, workers, chosen) + RangeSum(shards[i].start, shards[i].end)
    decreases |workers|
  {
    var last := |workers| - 1;
    if i < last {
      ChoosingAdds(shards, workers[..last], chosen, i);
    } else {
      OthersCount(shards, workers[..last], chosen, workers[i]);
    }
  }

  lemma {:induction false} OthersCount(shards: seq<Shard>, workers: seq<nat>, chosen: set<nat>, x: nat)
    requires |workers| <= |shards| && x !in workers
    ensures SumOf(shards, workers, chosen + {x}) == SumOf(shards, workers, chosen)
    decreases |workers|
  {
    if workers != [] {
      OthersCount(shards, workers[..|workers| - 1], chosen, x);
    }
  }

  lemma {:induction false} NothingChosen(shards: seq<Shard>, workers: seq<nat>)
    requires |workers| <= |shards|
    ensures SumOf(shards, workers, {}) == 0
    decreases |workers|
  {
    if workers != [] {
      NothingChosen(shards, workers[..|workers| - 1]);
    }
  }

  lemma {:induction false} AllChosen(shards: seq<Shard>, workers: seq<nat>, chosen: set<nat>)
    requires |workers| == |shards| && forall i | 0 <= i < |workers| :: workers[i] in chosen
    ensures SumOf(shards, workers, chosen) == Total(shards)
    decreases |shards|
  {
    if shards != [] {
      var last := |shards| - 1;
      AllChosen(shards[..last], workers[..last], chosen);
      SumOfPrefix(shards, last, workers[..last], chosen);
    }
  }

  lemma {:induction false} SumOfPrefix(shards: seq<Shard>, n: nat, workers: seq<nat>, chosen: set<nat>)
    requires |workers| <= n <= |shards|
    ensures SumOf(shards[..n], workers, chosen) == SumOf(shards, workers, chosen)
    decreases |workers|
  {
    if workers != [] {
      SumOfPrefix(shards, n, workers[..|workers| - 1], chosen);
    }
  }

  lemma WrapAdds(a: nat, b: nat)
    ensures Wrap(Wrap(a) + Wrap(b)) == Wrap(a + b)
  {
    var q, r := a / TWO_64, b / TWO_64;
    assert a == q * TWO_64 + Wrap(a) && b == r * TWO_64 + Wrap(b);
    assert a + b == (q + r) * TWO_64 + (Wrap(a) + Wrap(b));
    WrapShift(Wrap(a) + Wrap(b), q + r);
  }

  lemma {:induction false} WrapShift(n: nat, times: nat)
    ensures Wrap(times * TWO_64 + n) == Wrap(n)
  {
    if times > 0 {
      WrapShift(n, times - 1);
      assert times * TWO_64 + n == ((times - 1) * TWO_64 + n) + TWO_64;
    }
  }

  // ----- the invariant

  /** What holds of a worker's record, given the gatherer's. */
  ghost predicate WorkerOk(shards: seq<Shard>, root: nat, g: Actor, x: nat, a: Actor, i: nat, replied: bool)
    requires i < |shards|
  {
    && a.watched == {} && a.call.NoCall? && !a.phase.Restarting? && !a.phase.BackingOff?
    && (forall j | 0 <= j < |a.log| && a.log[j].Message? :: a.log[j] == Message(Some(root), i))
    && (a.phase.Receiving? ==> 0 < a.taken <= |a.log| && a.log[a.taken - 1].Message?)
    && (Running(g.phase) && !Running(a.phase) ==> replied)
    && (Running(g.phase) && replied ==> Reply(shards, x, i) in g.log)
  }

  ghost predicate FromWorker(shards: seq<Shard>, workers: seq<nat>, item: Item) {
    exists i :: 0 <= i < |workers| && i < |shards| && item == Reply(shards, workers[i], i)
  }

  /** The gatherer's mailbox holds replies and signals, at most one reply per worker. */
  ghost predicate LogOk(shards: seq<Shard>, p: Program, g: Actor) {
    && g.taken <= |g.log|
    && (forall j | 0 <= j < |g.log| && g.log[j].Message? ::
          FromWorker(shards, p.workers, g.log[j]) && g.log[j].from.Some? && g.log[j].from.value in p.replied)
    && (forall j, k | 0 <= j < k < |g.log| && g.log[j].Message? && g.log[k].Message? :: g.log[j].from != g.log[k].from)
    && (Running(g.phase) ==> forall j | 0 <= j < |g.log| && g.log[j].Message? ::
          g.log[j].from.value in p.added <==> j < g.taken)
  }

  ghost predicate GathererOk(shards: seq<Shard>, p: Program, g: Actor) {
    && !g.phase.Restarting? && !g.phase.BackingOff?
    && (g.phase.Initializing? ==> p.added == {} && p.handled == {} && g.taken == 0 && !p.done)
    && (!g.phase.Initializing? ==> |p.workers| == |shards| && g.call.NoCall?)
    && (!g.phase.Initializing? ==> p.remaining == |shards| - |p.handled| && (p.remaining > 0 || p.done))
    && (g.phase.Waiting? ==> !p.done)
    && (g.call.WatchAdded? || g.call.SelfSignal? ==> g.call.t in p.workers)
    && (forall t | t in g.watched :: t in p.workers && t !in p.handled)
    && (forall t | t in p.handled :: t in p.workers && t in p.added)
    && (forall t | t in p.added :: t in p.workers && t in p.replied)
    && (p.done ==> |p.handled| == |shards|)
    && |p.workers| <= |shards| && p.total == Wrap(SumOf(shards, p.workers, p.added))
  }

  /** The system consists of the gatherer and its workers. */
  ghost predicate Cast(shards: seq<Shard>, p: Program) {
    && |p.workers| <= |shards| && Distinct(p.workers) && p.sys.root !in p.workers
    && p.sys.root in p.sys.actors
    && (forall x | x in p.sys.actors :: x == p.sys.root || x in p.workers)
    && (forall i | 0 <= i < |p.workers| :: p.workers[i] in p.sys.actors)
    && (forall x | x in p.replied :: x in p.workers)
  }

  ghost predicate WorkersOk(shards: seq<Shard>, p: Program)
    requires Cast(shards, p)
  {
    forall i | 0 <= i < |p.workers| ::
      WorkerOk(shards, p.sys.root, p.sys.actors[p.sys.root], p.workers[i], p.sys.actors[p.workers[i]], i,
               p.workers[i] in p.replied)
  }

  ghost predicate Inv(shards: seq<Shard>, p: Program) {
    && Cast(shards, p)
    && WorkersOk(shards, p)
    && LogOk(shards, p, p.sys.actors[p.sys.root])
    && GathererOk(shards, p, p.sys.actors[p.sys.root])
  }

  // ----- steps of one record

  /** The gatherer goes on, or stops for good, and its mailbox only grows. */
  lemma GathererMoves(shards: seq<Shard>, root: nat, g: Actor, g': Actor, x: nat, a: Actor, i: nat, replied: bool)
    requires i < |shards| && WorkerOk(shards, root, g, x, a, i, replied)
    requires g.log <= g'.log && (Running(g'.phase) ==> Running(g.phase))
    ensures WorkerOk(shards, root, g', x, a, i, replied)
  {
    if Reply(shards, x, i) in g.log {
      var j :| 0 <= j < |g.log| && g.log[j] == Reply(shards, x, i);
      assert g'.log[j] == g.log[j];
    }
  }

  /** Registries, the rest of a termination and signals: nothing the program looks at, but new signals. */
  ghost predicate Mild(a: Actor, a': Actor) {
    && a'.watched == a.watched && a'.call == a.call && a'.taken == a.taken
    && (a'.phase == a.phase || (!Connected(a.phase) && !Connected(a'.phase)))
    && (a'.log == a.log || exists t :: a'.log == a.log + [Terminated(t)])
  }

  predicate IsMild(act: Action) {
    act.Deregister? || act.Signal? || act.WatchRoot?
  }

  lemma MildStep(s: System, act: Action)
    requires Enabled(s, act) && IsMild(act)
    ensures Next(s, act).actors.Keys == s.actors.Keys && Next(s, act).root == s.root
    ensures forall x | x in s.actors :: Mild(s.actors[x], Next(s, act).actors[x])
  {
    match act
    case Deregister(w, t) =>
    case Signal(w, watcher) =>
      forall x | x in s.actors ensures Mild(s.actors[x], Next(s, act).actors[x]) {
        assert watcher == ActorWatcher(x) && x != w ==>
          Next(s, act).actors[x] == Posted(s.actors[x], Terminated(w));
      }
    case WatchRoot =>
  }

  lemma MildWorker(shards: seq<Shard>, root: nat, g: Actor, x: nat, a: Actor, a': Actor, i: nat, replied: bool)
    requires i < |shards| && WorkerOk(shards, root, g, x, a, i, replied) && Mild(a, a')
    ensures WorkerOk(shards, root, g, x, a', i, replied)
  {
  }

  lemma MildLog(shards: seq<Shard>, p: Program, g: Actor, g': Actor)
    requires LogOk(shards, p, g) && Mild(g, g')
    ensures LogOk(shards, p, g')
  {
  }

  lemma MildSystem(shards: seq<Shard>, p: Program, s': System)
    requires Inv(shards, p) && s'.actors.Keys == p.sys.actors.Keys && s'.root == p.sys.root
    requires forall x | x in s'.actors :: Mild(p.sys.actors[x], s'.actors[x])
    ensures Inv(shards, p.(sys := s'))
  {
    var root := p.sys.root;
    var g, g' := p.sys.actors[root], s'.actors[root];
    assert Mild(g, g');
    forall i | 0 <= i < |p.workers|
      ensures WorkerOk(shards, root, g', p.workers[i], s'.actors[p.workers[i]], i, p.workers[i] in p.replied)
    {
      var x := p.workers[i];
      MildWorker(shards, root, g, x, p.sys.actors[x], s'.actors[x], i, x in p.replied);
      GathererMoves(shards, root, g, g', x, s'.actors[x], i, x in p.replied);
    }
    MildLog(shards, p, g, g');
    MildGatherer(shards, p, g, g');
    SameLogOk(shards, p, p.(sys := s'), g');
  }

  lemma MildGatherer(shards: seq<Shard>, p: Program, g: Actor, g': Actor)
    requires GathererOk(shards, p, g) && Mild(g, g')
    ensures GathererOk(shards, p, g')
  {
  }

  /** The gatherer's records are about its own state, not about the rest of the system. */
  lemma SameLogOk(shards: seq<Shard>, p: Program, p': Program, g: Actor)
    requires p'.(sys := p.sys) == p
    ensures LogOk(shards, p, g) ==> LogOk(shards, p', g)
    ensures GathererOk(shards, p, g) ==> GathererOk(shards, p', g)
  {
  }

  lemma MildKeepsInv(shards: seq<Shard>, p: Program, act: Action)
    requires Inv(shards, p) && Enabled(p.sys, act) && Allowed(shards, p, act) && IsMild(act)
    ensures Inv(shards, After(shards, p, act))
  {
    MildStep(p.sys, act);
    MildSystem(shards, p, Next(p.sys, act));
  }

  // ----- the workers' steps

  /** A worker's task takes a step of its own. */
  lemma WorkerOwn(shards: seq<Shard>, p: Program, x: nat, own: OwnAction, i: nat)
    requires Cast(shards, p) && CanOwn(p.sys, x, own) && i < |p.workers| && x == p.workers[i]
    requires WorkerMay(p, x, p.sys.actors[p.sys.root], own)
    requires var g := p.sys.actors[p.sys.root];
      WorkerOk(shards, p.sys.root, g, x, p.sys.actors[x], i, x in p.replied)
    ensures var g := p.sys.actors[p.sys.root];
      WorkerOk(shards, p.sys.root, g, x, AfterOwn(p.sys.actors[x], own), i, x in p.replied)
  {
  }

  /** Only one worker's record changes. */
  lemma PutWorker(shards: seq<Shard>, p: Program, i: nat, a: Actor)
    requires Inv(shards, p) && i < |p.workers|
    requires WorkerOk(shards, p.sys.root, p.sys.actors[p.sys.root], p.workers[i], a, i, p.workers[i] in p.replied)
    ensures Inv(shards, p.(sys := Put(p.sys, p.workers[i], a)))
  {
    var p' := p.(sys := Put(p.sys, p.workers[i], a));
    var g := p.sys.actors[p.sys.root];
    assert p'.sys.actors[p.sys.root] == g;
    forall j | 0 <= j < |p.workers|
      ensures WorkerOk(shards, p.sys.root, g, p.workers[j], p'.sys.actors[p.workers[j]], j, p.workers[j] in p.replied)
    {
      assert WorkerOk(
          shards, p.sys.root, g, p.workers[j], p.sys.actors[p.workers[j]], j, p.workers[j] in p.replied);
    }
    SameLogOk(shards, p, p', g);
  }

  lemma WorkerStep(shards: seq<Shard>, p: Program, x: nat, own: OwnAction)
    requires Inv(shards, p) && Enabled(p.sys, Own(x, own)) && Allowed(shards, p, Own(x, own)) && x != p.sys.root
    ensures Inv(shards, After(shards, p, Own(x, own)))
  {
    var i :| 0 <= i < |p.workers| && p.workers[i] == x;
    WorkerOwn(shards, p, x, own, i);
    PutWorker(shards, p, i, AfterOwn(p.sys.actors[x], own));
  }

  /** The gatherer tells the newest worker its shard. */
  lemma TellStep(shards: seq<Shard>, p: Program, act: Action)
    requires Inv(shards, p) && Enabled(p.sys, act) && Allowed(shards, p, act) && act.Send? && act.w == p.sys.root
    ensures Inv(shards, After(shards, p, act))
  {
    var i := |p.workers| - 1;
    var a := p.sys.actors[act.to];
    PutWorker(shards, p, i, Posted(a, Message(Some(p.sys.root), act.body)));
    var p1 := p.(sys := Next(p.sys, act));
    assert After(shards, p, act) == p1.(stage := Spawning);
  }

  /** The reply of a worker that had not replied is appended to the gatherer's mailbox. */
  lemma ReplyLog(shards: seq<Shard>, p: Program, g: Actor, i: nat)
    requires i < |p.workers| <= |shards| && p.workers[i] !in p.replied
    requires LogOk(shards, p, g) && GathererOk(shards, p, g)
    ensures var p' := p.(replied := p.replied + {p.workers[i]});
      var g' := Posted(g, Reply(shards, p.workers[i], i));
      LogOk(shards, p', g') && GathererOk(shards, p', g')
  {
    var x := p.workers[i];
    var p' := p.(replied := p.replied + {x});
    var g' := Posted(g, Reply(shards, x, i));
    assert FromWorker(shards, p.workers, Reply(shards, x, i));
    forall j | 0 <= j < |g.log| && g.log[j].Message? ensures g.log[j].from != Some(x) {
      assert g.log[j].from.value in p.replied;
    }
    forall j | 0 <= j < |g'.log| && g'.log[j].Message?
      ensures FromWorker(shards, p'.workers, g'.log[j]) && g'.log[j].from.Some?
      ensures g'.log[j].from.value in p'.replied
    {
      assert j < |g.log| ==> g'.log[j] == g.log[j];
    }
  }

  lemma ReplyWorker(shards: seq<Shard>, p: Program, i: nat, j: nat)
    requires Inv(shards, p) && i < |p.workers| && j < |p.workers|
    ensures var (root, x, y) := (p.sys.root, p.workers[i], p.workers[j]);
      var g' := Posted(p.sys.actors[root], Reply(shards, x, i));
      WorkerOk(shards, root, g', y, p.sys.actors[y], j, y in p.replied + {x})
  {
    var (root, x, y) := (p.sys.root, p.workers[i], p.workers[j]);
    var g := p.sys.actors[root];
    var g' := Posted(g, Reply(shards, x, i));
    GathererMoves(shards, root, g, g', y, p.sys.actors[y], j, y in p.replied);
    if Running(g'.phase) {
      assert g'.log[|g.log|] == Reply(shards, x, i);
    }
  }

  lemma ReplyStep(shards: seq<Shard>, p: Program, act: Action)
    requires Inv(shards, p) && Enabled(p.sys, act) && Allowed(shards, p, act) && act.Send? && act.w != p.sys.root
    ensures Inv(shards, After(shards, p, act))
  {
    var x, root := act.w, p.sys.root;
    var i :| 0 <= i < |p.workers| && p.workers[i] == x;
    var g, a := p.sys.actors[root], p.sys.actors[x];
    assert WorkerOk(shards, root, g, x, a, i, x in p.replied);
    var g' := Posted(g, Reply(shards, x, i));
    var p' := p.(sys := Put(p.sys, root, g'), replied := p.replied + {x});
    assert After(shards, p, act) == p';
    ReplyLog(shards, p, g, i);
    SameLogOk(shards, p.(replied := p.replied + {x}), p', g');
    forall j | 0 <= j < |p.workers|
      ensures WorkerOk(shards, root, g', p.workers[j], p'.sys.actors[p.workers[j]], j, p.workers[j] in p'.replied)
    {
      ReplyWorker(shards, p, i, j);
    }
  }

  // ----- the gatherer's steps

  /** Only the gatherer's record changes. */
  lemma PutGatherer(shards: seq<Shard>, p: Program, p': Program, g': Actor)
    requires Inv(shards, p) && p'.sys == Put(p.sys, p.sys.root, g')
    requires p'.workers == p.workers && p'.replied == p.replied
    requires var g := p.sys.actors[p.sys.root]; g.log <= g'.log && (Running(g'.phase) ==> Running(g.phase))
    requires LogOk(shards, p', g') && GathererOk(shards, p', g')
    ensures Inv(shards, p')
  {
    var root := p.sys.root;
    forall i | 0 <= i < |p.workers|
      ensures WorkerOk(shards, root, g', p.workers[i], p'.sys.actors[p.workers[i]], i, p.workers[i] in p.replied)
    {
      var x := p.workers[i];
      assert WorkerOk(shards, root, p.sys.actors[root], x, p.sys.actors[x], i, x in p.replied);
      GathererMoves(shards, root, p.sys.actors[root], g', x, p.sys.actors[x], i, x in p.replied);
    }
  }

  /** Any step of the gatherer but receiving, on its record. */
  lemma GathererOwnLog(shards: seq<Shard>, p: Program, own: OwnAction)
    requires CanOwn(p.sys, p.sys.root, own) && !own.Take? && !own.Restart? && !own.Reinit?
    requires LogOk(shards, p, p.sys.actors[p.sys.root])
    ensures var g, g' := p.sys.actors[p.sys.root], AfterOwn(p.sys.actors[p.sys.root], own);
      && g.log <= g'.log && (Running(g'.phase) ==> Running(g.phase))
      && LogOk(shards, p, g')
  {
  }

  lemma GathererOwn(shards: seq<Shard>, p: Program, own: OwnAction)
    requires CanOwn(p.sys, p.sys.root, own) && !own.Take? && shards != []
    requires GathererMay(shards, p, p.sys.actors[p.sys.root], own)
    requires GathererOk(shards, p, p.sys.actors[p.sys.root])
    ensures var p' := if own.InitDone? then p.(remaining := |shards|, total := 0) else p;
      GathererOk(shards, p', AfterOwn(p.sys.actors[p.sys.root], own))
  {
    NothingChosen(shards, p.workers);
  }

  lemma GathererStep(shards: seq<Shard>, p: Program, own: OwnAction)
    requires shards != [] && Inv(shards, p) && !own.Take?
    requires Enabled(p.sys, Own(p.sys.root, own)) && Allowed(shards, p, Own(p.sys.root, own))
    ensures Inv(shards, After(shards, p, Own(p.sys.root, own)))
  {
    var g' := AfterOwn(p.sys.actors[p.sys.root], own);
    GathererOwnLog(shards, p, own);
    GathererOwn(shards, p, own);
    var p1 := if own.InitDone? then p.(remaining := |shards|, total := 0) else p;
    assert LogOk(shards, p1, g');
    var p' := After(shards, p, Own(p.sys.root, own));
    SameLogOk(shards, p1, p', g');
    PutGatherer(shards, p, p', g');
  }

  /** A message in the gatherer's mailbox that was not taken is of a worker not added yet. */
  lemma TakesPartialLog(shards: seq<Shard>, p: Program, g: Actor)
    requires LogOk(shards, p, g) && g.phase.Waiting? && g.taken < |g.log| && g.log[g.taken].Message?
    ensures LogOk(shards, Received(p, g.log[g.taken], g.watched), Taken(g))
  {
  }

  /** The gatherer takes a partial result and adds it. */
  lemma TakesPartial(shards: seq<Shard>, p: Program, g: Actor)
    requires LogOk(shards, p, g) && GathererOk(shards, p, g) && Distinct(p.workers)
    requires g.phase.Waiting? && g.taken < |g.log| && g.log[g.taken].Message?
    ensures GathererOk(shards, Received(p, g.log[g.taken], g.watched), Taken(g))
  {
    var item := g.log[g.taken];
    assert FromWorker(shards, p.workers, item);
    var i :| 0 <= i < |p.workers| && i < |shards| && item == Reply(shards, p.workers[i], i);
    assert item.from.value in p.replied && item.from.value !in p.added;
    ChoosingAdds(shards, p.workers, p.added, i);
    WrapAdds(SumOf(shards, p.workers, p.added), RangeSum(shards[i].start, shards[i].end));
  }

  /** The gatherer takes a signal: of a worker whose result has been added, if it still watches it. */
  lemma TakesSignal(shards: seq<Shard>, p: Program, g: Actor)
    requires LogOk(shards, p, g) && GathererOk(shards, p, g)
    requires g.phase.Waiting? && g.taken < |g.log| && g.log[g.taken].Terminated?
    requires var t := g.log[g.taken].other; t in g.watched ==> t in p.added
    ensures var p' := Received(p, g.log[g.taken], g.watched);
      LogOk(shards, p', Taken(g)) && GathererOk(shards, p', Taken(g))
  {
  }

  lemma Takes(shards: seq<Shard>, p: Program, g: Actor)
    requires LogOk(shards, p, g) && GathererOk(shards, p, g) && Distinct(p.workers)
    requires g.phase.Waiting? && g.taken < |g.log|
    requires var item := g.log[g.taken]; item.Terminated? && item.other in g.watched ==> item.other in p.added
    ensures var p' := Received(p, g.log[g.taken], g.watched);
      LogOk(shards, p', Taken(g)) && GathererOk(shards, p', Taken(g))
  {
    if g.log[g.taken].Message? {
      TakesPartialLog(shards, p, g);
      TakesPartial(shards, p, g);
    } else {
      TakesSignal(shards, p, g);
    }
  }

  lemma TakeStep(shards: seq<Shard>, p: Program)
    requires Inv(shards, p) && Enabled(p.sys, Own(p.sys.root, Take)) && Allowed(shards, p, Own(p.sys.root, Take))
    requires forall t | Delivers(p.sys, Own(p.sys.root, Take), p.sys.root, t) :: t in p.added
    ensures Inv(shards, After(shards, p, Own(p.sys.root, Take)))
  {
    var g := p.sys.actors[p.sys.root];
    var item := g.log[g.taken];
    assert item.Terminated? && item.other in g.watched ==>
      Delivers(p.sys, Own(p.sys.root, Take), p.sys.root, item.other);
    Takes(shards, p, g);
    var p1 := Received(p, item, g.watched);
    var p' := p1.(sys := Put(p.sys, p.sys.root, Taken(g)));
    SameLogOk(shards, p1, p', Taken(g));
    PutGatherer(shards, p, p', Taken(g));
    TakeIsReceived(shards, p);
  }

  lemma TakeIsReceived(shards: seq<Shard>, p: Program)
    requires Enabled(p.sys, Own(p.sys.root, Take)) && Allowed(shards, p, Own(p.sys.root, Take))
    ensures var g := p.sys.actors[p.sys.root];
      After(shards, p, Own(p.sys.root, Take)) ==
      Received(p, g.log[g.taken], g.watched).(sys := Put(p.sys, p.sys.root, Taken(g)))
  {
  }

  /** A new worker changes nothing for the gatherer, which is still in `init`. */
  lemma SpawnGatherer(shards: seq<Shard>, p: Program, g: Actor, child: nat)
    requires LogOk(shards, p, g) && GathererOk(shards, p, g) && g.phase.Initializing? && |p.workers| < |shards|
    ensures var p' := p.(workers := p.workers + [child]); LogOk(shards, p', g) && GathererOk(shards, p', g)
  {
    var workers := p.workers + [child];
    NothingChosen(shards, p.workers);
    NothingChosen(shards, workers);
    forall j | 0 <= j < |g.log| && g.log[j].Message? ensures FromWorker(shards, workers, g.log[j]) {
      assert FromWorker(shards, p.workers, g.log[j]);
      var i :| 0 <= i < |p.workers| && i < |shards| && g.log[j] == Reply(shards, p.workers[i], i);
      assert workers[i] == p.workers[i];
    }
    assert forall t | t in p.workers :: t in workers;
  }

  lemma SpawnCast(shards: seq<Shard>, p: Program, child: nat, a: Actor)
    requires Cast(shards, p) && child !in p.sys.actors && |p.workers| < |shards|
    ensures Cast(shards, p.(sys := Put(p.sys, child, a), workers := p.workers + [child], stage := Watching))
  {
  }

  lemma SpawnWorkers(shards: seq<Shard>, p: Program, child: nat, a: Actor)
    requires Cast(shards, p) && WorkersOk(shards, p) && child !in p.sys.actors && |p.workers| < |shards|
    requires a == Newborn(a.parent, a.parentGen, a.depth)
    ensures var p' := p.(sys := Put(p.sys, child, a), workers := p.workers + [child], stage := Watching);
      Cast(shards, p') && WorkersOk(shards, p')
  {
    SpawnCast(shards, p, child, a);
    var p' := p.(sys := Put(p.sys, child, a), workers := p.workers + [child], stage := Watching);
    var g := p.sys.actors[p.sys.root];
    forall i | 0 <= i < |p'.workers|
      ensures WorkerOk(
                shards, p.sys.root, g, p'.workers[i], p'.sys.actors[p'.workers[i]], i, p'.workers[i] in p.replied)
    {
      if i < |p.workers| {
        assert WorkerOk(
            shards, p.sys.root, g, p.workers[i], p.sys.actors[p.workers[i]], i, p.workers[i] in p.replied);
      }
    }
  }

  lemma SpawnStep(shards: seq<Shard>, p: Program, act: Action)
    requires Inv(shards, p) && Enabled(p.sys, act) && Allowed(shards, p, act) && act.Spawn?
    ensures Inv(shards, After(shards, p, act))
  {
    var p' := After(shards, p, act);
    var g := p.sys.actors[p.sys.root];
    SpawnGatherer(shards, p, g, act.child);
    SpawnWorkers(shards, p, act.child, p'.sys.actors[act.child]);
    SameLogOk(shards, p.(workers := p'.workers, stage := Watching), p', g);
  }

  lemma WatchStep(shards: seq<Shard>, p: Program, act: Action)
    requires Inv(shards, p) && Enabled(p.sys, act) && Allowed(shards, p, act) && act.WatchAdd?
    ensures Inv(shards, After(shards, p, act))
  {
    var p' := After(shards, p, act);
    var root, t := p.sys.root, act.t;
    var s1 := SetRegistry(p.sys, t, Added(p.sys.actors[t].registry, ActorWatcher(root)));
    MildSystem(shards, p, s1);
    var p1 := p.(sys := s1);
    var g' := p'.sys.actors[root];
    assert p'.sys == Put(s1, root, g');
    assert LogOk(shards, p', g') && GathererOk(shards, p', g') by {
      assert LogOk(shards, p1, s1.actors[root]) && GathererOk(shards, p1, s1.actors[root]);
    }
    PutGatherer(shards, p1, p', g');
  }

  // ----- whole runs

  lemma StepKeepsInv(shards: seq<Shard>, p: Program, act: Action)
    requires shards != [] && Inv(shards, p) && Enabled(p.sys, act) && Allowed(shards, p, act)
    requires forall t | Delivers(p.sys, act, p.sys.root, t) :: t in p.added
    ensures Inv(shards, After(shards, p, act))
  {
    match act
    case Own(w, own) =>
      if w != p.sys.root {
        WorkerStep(shards, p, w, own);
      } else if own.Take? {
        TakeStep(shards, p);
      } else {
        GathererStep(shards, p, own);
      }
    case Spawn(_, _) => SpawnStep(shards, p, act);
    case WatchAdd(_, _) => WatchStep(shards, p, act);
    case Send(w, _, _) =>
      if w == p.sys.root {
        TellStep(shards, p, act);
      } else {
        ReplyStep(shards, p, act);
      }
    case _ => MildKeepsInv(shards, p, act);
  }

  /**
   * Death watch at work: whoever is reported terminated has replied, and its reply, being a message
   * it sent, was taken before its signal.
   */
  lemma DeliveredIsAdded(shards: seq<Shard>, run: seq<Program>, acts: seq<Action>, k: nat, t: nat)
    requires IsExecution(shards, run, acts) && k < |acts| && Inv(shards, run[k])
    requires Delivers(run[k].sys, acts[k], run[k].sys.root, t)
    ensures t in run[k].added
  {
    var p := run[k];
    var root := p.sys.root;
    var g := p.sys.actors[root];
    SystemsRun(shards, run, acts);
    DeliveredIsClosed(Systems(run), acts, k, root, t);
    var i :| 0 <= i < |p.workers| && p.workers[i] == t;
    assert WorkerOk(shards, root, g, t, p.sys.actors[t], i, t in p.replied);
    var j :| 0 <= j < |g.log| && g.log[j] == Reply(shards, t, i);
    SignalIsBehindAllMessages(Systems(run), acts, k, k, root, t, j);
  }

  lemma BeginInv(shards: seq<Shard>, p: Program)
    requires Begins(p)
    ensures Inv(shards, p)
  {
  }

  lemma RunStep(shards: seq<Shard>, run: seq<Program>, acts: seq<Action>, k: nat)
    requires shards != [] && IsExecution(shards, run, acts) && k < |acts| && Inv(shards, run[k])
    ensures Inv(shards, run[k + 1])
  {
    var p, act := run[k], acts[k];
    forall t | Delivers(p.sys, act, p.sys.root, t) ensures t in p.added {
      DeliveredIsAdded(shards, run, acts, k, t);
    }
    StepKeepsInv(shards, p, act);
  }

  lemma {:induction false} RunInv(shards: seq<Shard>, run: seq<Program>, acts: seq<Action>, k: nat)
    requires shards != [] && IsExecution(shards, run, acts) && k < |run|
    ensures Inv(shards, run[k])
  {
    if k == 0 {
      BeginInv(shards, run[0]);
    } else {
      RunInv(shards, run, acts, k - 1);
      RunStep(shards, run, acts, k - 1);
    }
  }

  /** Whenever a worker's signal is handed to the gatherer, its partial result has already been added. */
  lemma SignalMeansAdded(shards: seq<Shard>, run: seq<Program>, acts: seq<Action>, k: nat, t: nat)
    requires shards != [] && IsExecution(shards, run, acts) && k < |acts|
    requires Delivers(run[k].sys, acts[k], run[k].sys.root, t)
    ensures t in run[k].workers && t in run[k].added && t !in run[k].handled
  {
    RunInv(shards, run, acts, k);
    DeliveredIsAdded(shards, run, acts, k, t);
  }

  /** When the gatherer stops, its total is the sum over all shards, as 64-bit arithmetic gives it. */
  lemma TotalIsComplete(shards: seq<Shard>, run: seq<Program>, acts: seq<Action>, k: nat)
    requires shards != [] && IsExecution(shards, run, acts) && k < |run| && run[k].done
    ensures run[k].total == Wrap(Total(shards))
    ensures Total(shards) < TWO_64 ==> run[k].total == Total(shards)
  {
    RunInv(shards, run, acts, k);
    var p := run[k];
    AllHandled(p.workers, p.handled);
    AllChosen(shards, p.workers, p.added);
  }

  /** As many handled signals as workers: every worker's signal was handled. */
  lemma {:induction false} AllHandled(workers: seq<nat>, handled: set<nat>)
    requires Distinct(workers) && forall t | t in handled :: t in workers
    ensures |handled| <= |workers|
    ensures |handled| == |workers| ==> forall i | 0 <= i < |workers| :: workers[i] in handled
    decreases |workers|
  {
    if workers == [] {
      assert handled == {};
    } else {
      var last := |workers| - 1;
      var rest := handled - {workers[last]};
      AllHandled(workers[..last], rest);
      assert workers[last] !in handled ==> rest == handled;
    }
  }
}
