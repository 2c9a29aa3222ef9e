/**
 * The host over whole runs, among entities that terminate when they like. Identifiers handed out
 * by spawning are new, and a terminated signal is handled only after its sender has terminated:
 * that is what `DeathWatch.DeliveredIsClosed` proves of every run of an actor system.
 */
module HostRuns {
  import opened Prelude
  import opened Hosts

  /**
   * `alive` are the entities that have not terminated, `handled` those whose terminated signal the
   * host has handled, `tickers` the tickers whose signal is outstanding.
   */
  datatype World = World(host: State, alive: set<nat>, handled: set<nat>, tickers: set<nat>)

  datatype Action =
    | Route(key: Key, now: nat, newId: nat, accepted: bool)
    | EntitySignal(actor: nat, now: nat, newId: nat, accepts: nat -> bool)
    | TickerSignal(actor: nat, now: nat, newId: nat, accepts: nat -> bool, order: seq<Key>)
    | Die(actor: nat)

  ghost predicate IsNew(w: World, id: nat) {
    id !in w.host.spawned && id !in w.tickers
  }

  ghost predicate Enabled(w: World, act: Action) {
    match act
    case Route(_, _, newId, _) => IsNew(w, newId)
    case EntitySignal(actor, _, newId, _) =>
      IsNew(w, newId) && actor !in w.alive && actor !in w.tickers && actor != newId
    case TickerSignal(actor, _, newId, _, order) =>
      && IsNew(w, newId) && actor in w.tickers
      && forall key :: key in order <==> key in w.host.entries
    case Die(actor) => actor in w.alive
  }

  /** The entities spawned between two host states. */
  ghost function Spawned(s: State, s': State): set<nat> {
    s'.spawned.Keys - s.spawned.Keys
  }

  /** `Host::terminated`, which tells a ticker's signal from an entity's by the ticker it remembers. */
  ghost function Signaled(
      c: Config, s: State, actor: nat, now: nat, newId: nat, accepts: nat -> bool, order: seq<Key>): State
  {
    if s.ticker == Some(actor) then Ticking(c, Swept(c, s, order, now, accepts), newId)
    else Gone(s, actor, now, newId, accepts)
  }

  ghost function Next(c: Config, w: World, act: Action): World
    requires Enabled(w, act)
  {
    match act
    case Route(key, now, newId, accepted) =>
      var s := Routed(c, w.host, key, now, newId, accepted);
      w.(host := s, alive := w.alive + Spawned(w.host, s))
    case EntitySignal(actor, now, newId, accepts) =>
      var s := Signaled(c, w.host, actor, now, newId, accepts, []);
      w.(host := s,
         alive := w.alive + Spawned(w.host, s),
         handled := if actor in w.host.spawned then w.handled + {actor} else w.handled)
    case TickerSignal(actor, now, newId, accepts, order) =>
      var s := Signaled(c, w.host, actor, now, newId, accepts, order);
      w.(host := s,
         alive := w.alive + Spawned(w.host, s),
         tickers := w.tickers - {actor} + if s.ticker.Some? then {s.ticker.value} else {})
    case Die(actor) => w.(alive := w.alive - {actor})
  }

  ghost predicate Start(c: Config, w: World) {
    exists id :: w == World(Ticking(c, EMPTY, id), {}, {}, if c.idleTimeout.Some? then {id} else {})
  }

  ghost predicate IsRun(c: Config, run: seq<World>, acts: seq<Action>) {
    && |run| == |acts| + 1
    && Start(c, run[0])
    && forall k | 0 <= k < |acts| :: Enabled(run[k], acts[k]) && run[k + 1] == Next(c, run[k], acts[k])
  }

  // ----- registry

  /** `keys` and `entries` are inverse to each other, and a hosted entity is under the key it was spawned for. */
  ghost predicate Inverse(s: State) {
    && (forall id | id in s.keys :: s.keys[id] in s.entries && s.entries[s.keys[id]].actor == id)
    && (forall key | key in s.entries :: s.entries[key].actor in s.keys && s.keys[s.entries[key].actor] == key)
    && (forall id | id in s.keys :: id in s.spawned && s.spawned[id] == s.keys[id])
  }

  // ----- messages

  ghost predicate Buffered(entries: map<Key, Entry>, key: Key, n: nat) {
    key in entries && entries[key].Stopping? && n in entries[key].buffered
  }

  ghost predicate Enqueued(log: seq<Post>, n: nat) {
    exists i :: 0 <= i < |log| && log[i].Message? && log[i].n == n
  }

  /** The message is in exactly one place. */
  ghost predicate Placed(s: State, n: nat)
    requires n < |s.arrived|
  {
    if Enqueued(s.log, n) then !Buffered(s.entries, s.arrived[n], n) && n !in s.refused
    else if Buffered(s.entries, s.arrived[n], n) then n !in s.refused
    else n in s.refused
  }

  /** A mailbox only gets messages for its entity's key. */
  ghost predicate Addressed(s: State, p: Post) {
    && p.actor in s.spawned
    && (p.Message? ==> p.n < |s.arrived| && s.arrived[p.n] == s.spawned[p.actor])
  }

  ghost predicate BufferOk(c: Config, s: State, key: Key, buffered: seq<nat>) {
    && |buffered| <= c.buffer
    && (forall i | 0 <= i < |buffered| :: buffered[i] < |s.arrived| && s.arrived[buffered[i]] == key)
    && (forall i, j | 0 <= i < j < |buffered| :: buffered[i] < buffered[j])
  }

  /** Two messages for one key were accepted in arrival order, and a replaced incarnation never gets another. */
  ghost predicate InOrder(s: State, p: Post, q: Post)
    requires p.actor in s.spawned && q.actor in s.spawned
  {
    && (p.Message? && q.Message? && s.spawned[p.actor] == s.spawned[q.actor] ==>
          p.n < q.n && (p.actor != q.actor ==> p.actor !in s.keys))
    && (p.Passivate? ==> p.actor != q.actor)
  }

  /** Everything accepted for a key arrived before everything still buffered for it. */
  ghost predicate BeforeBuffer(s: State, p: Post)
    requires p.actor in s.spawned
  {
    p.Message? ==> forall m | Buffered(s.entries, s.spawned[p.actor], m) :: p.n < m
  }

  /** An entity asked to passivate is stopping, or gone. */
  ghost predicate AskedIsStopping(s: State, p: Post) {
    p.Passivate? && p.actor in s.keys ==> s.keys[p.actor] in s.entries && s.entries[s.keys[p.actor]].Stopping?
  }

  /** No other incarnation's message stands between two messages of one incarnation. */
  ghost predicate Contiguous(s: State, p: Post, q: Post, r: Post) {
    && p.Message? && q.Message? && r.Message? && p.actor == r.actor
    && p.actor in s.spawned && q.actor in s.spawned && s.spawned[p.actor] == s.spawned[q.actor] ==>
      q.actor == p.actor
  }

  ghost predicate Blocks(s: State) {
    forall i, j, l | 0 <= i < j < l < |s.log| :: Contiguous(s, s.log[i], s.log[j], s.log[l])
  }

  ghost predicate LogInv(s: State) {
    && (forall i | 0 <= i < |s.log| ::
          Addressed(s, s.log[i]) && BeforeBuffer(s, s.log[i]) && AskedIsStopping(s, s.log[i]))
    && (forall i, j | 0 <= i < j < |s.log| :: InOrder(s, s.log[i], s.log[j]))
    && Blocks(s)
  }

  ghost predicate BuffersInv(c: Config, s: State) {
    forall key | key in s.entries && s.entries[key].Stopping? :: BufferOk(c, s, key, s.entries[key].buffered)
  }

  ghost predicate PlacesInv(s: State) {
    forall n | 0 <= n < |s.arrived| :: Placed(s, n)
  }

  ghost predicate RefusedArrived(s: State) {
    forall n | n in s.refused :: n < |s.arrived|
  }

  ghost predicate HostInv(c: Config, s: State) {
    Inverse(s) && BuffersInv(c, s) && LogInv(s) && PlacesInv(s)
  }

  ghost predicate WorldInv(c: Config, w: World) {
    && HostInv(c, w.host) && RefusedArrived(w.host)
    && w.host.keys.Keys == w.host.spawned.Keys - w.handled
    && w.alive <= w.host.spawned.Keys && w.alive !! w.handled && w.handled <= w.host.spawned.Keys
    && (if c.idleTimeout.Some? then w.host.ticker.Some? && w.tickers == {w.host.ticker.value}
        else w.host.ticker.None? && w.tickers == {})
    && w.tickers !! w.host.spawned.Keys
  }

  // ----- routing

  lemma RouteKeepsInverse(c: Config, s: State, key: Key, now: nat, newId: nat, accepted: bool)
    requires Inverse(s) && newId !in s.spawned
    ensures Inverse(Routed(c, s, key, now, newId, accepted))
  {
  }

  lemma RouteKeepsBuffers(c: Config, s: State, key: Key, now: nat, newId: nat, accepted: bool)
    requires BuffersInv(c, s)
    ensures BuffersInv(c, Routed(c, s, key, now, newId, accepted))
  {
    var s' := Routed(c, s, key, now, newId, accepted);
    forall k | k in s'.entries && s'.entries[k].Stopping? ensures BufferOk(c, s', k, s'.entries[k].buffered) {
      assert k in s.entries && s.entries[k].Stopping?;
      assert BufferOk(c, s, k, s.entries[k].buffered);
    }
  }

  /** Everything accepted for the key arrived before `n`. */
  ghost predicate AllBelow(s: State, key: Key, n: nat) {
    forall i | 0 <= i < |s.log| && s.log[i].Message? && s.log[i].actor in s.spawned &&
               s.spawned[s.log[i].actor] == key :: s.log[i].n < n
  }

  /** A message can be appended for the entity that is now live under its key. */
  lemma AppendKeepsLog(s: State, actor: nat, n: nat)
    requires Inverse(s) && LogInv(s)
    requires actor in s.keys && s.entries[s.keys[actor]].Live?
    requires n < |s.arrived| && s.arrived[n] == s.keys[actor]
    requires AllBelow(s, s.keys[actor], n)
    ensures LogInv(s.(log := s.log + [Message(actor, n)]))
  {
    var q := Message(actor, n);
    var s' := s.(log := s.log + [q]);
    forall i | 0 <= i < |s.log|
      ensures Addressed(s', s.log[i]) && BeforeBuffer(s', s.log[i]) && AskedIsStopping(s', s.log[i])
      ensures InOrder(s', s.log[i], q)
    {
      assert Addressed(s, s.log[i]) && BeforeBuffer(s, s.log[i]) && AskedIsStopping(s, s.log[i]);
    }
    forall i, j | 0 <= i < j < |s.log| ensures InOrder(s', s.log[i], s.log[j]) {
      assert Addressed(s, s.log[i]) && Addressed(s, s.log[j]) && InOrder(s, s.log[i], s.log[j]);
    }
    AppendKeepsBlocks(s, q);
  }

  /** The entity that gets a message now is hosted, so whoever was replaced gets none. */
  lemma AppendKeepsBlocks(s: State, q: Post)
    requires LogInv(s) && (q.Message? ==> q.actor in s.keys)
    ensures Blocks(s.(log := s.log + [q]))
  {
    var s' := s.(log := s.log + [q]);
    forall i, j, l | 0 <= i < j < l < |s'.log| ensures Contiguous(s', s'.log[i], s'.log[j], s'.log[l]) {
      assert Addressed(s, s.log[i]) && Addressed(s, s.log[j]) && InOrder(s, s.log[i], s.log[j]);
      assert l < |s.log| ==> Contiguous(s, s.log[i], s.log[j], s.log[l]);
    }
  }

  lemma FrameKeepsBlocks(s: State, s': State)
    requires LogInv(s) && s'.log == s.log
    requires forall id | id in s.spawned :: id in s'.spawned && s'.spawned[id] == s.spawned[id]
    ensures Blocks(s')
  {
    forall i, j, l | 0 <= i < j < l < |s'.log| ensures Contiguous(s', s'.log[i], s'.log[j], s'.log[l]) {
      assert Contiguous(s, s.log[i], s.log[j], s.log[l]);
      assert Addressed(s, s.log[i]) && Addressed(s, s.log[j]);
    }
  }

  /** What the log's claims need when the host's tables change but the log does not. */
  ghost predicate LogFrame(s: State, s': State) {
    && s'.log == s.log
    && s.arrived <= s'.arrived
    && s.spawned.Keys <= s'.spawned.Keys
    && (forall id | id in s.spawned :: s'.spawned[id] == s.spawned[id])
    && (forall id | id in s.spawned && id in s'.keys :: id in s.keys && s'.keys[id] == s.keys[id])
    && (forall key, m: nat | Buffered(s'.entries, key, m) :: Buffered(s.entries, key, m) || m >= |s.arrived|)
    && (forall id | id in s.spawned && id in s'.keys && s.keys[id] in s.entries && s.entries[s.keys[id]].Stopping? ::
          s'.keys[id] in s'.entries && s'.entries[s'.keys[id]].Stopping?)
  }

  lemma FrameKeepsLog(s: State, s': State)
    requires Inverse(s) && LogInv(s) && LogFrame(s, s')
    ensures LogInv(s')
  {
    forall i | 0 <= i < |s'.log|
      ensures Addressed(s', s'.log[i]) && BeforeBuffer(s', s'.log[i]) && AskedIsStopping(s', s'.log[i])
    {
      assert Addressed(s, s.log[i]) && BeforeBuffer(s, s.log[i]) && AskedIsStopping(s, s.log[i]);
    }
    forall i, j | 0 <= i < j < |s'.log| ensures InOrder(s', s'.log[i], s'.log[j]) {
      assert Addressed(s, s.log[i]) && Addressed(s, s.log[j]) && InOrder(s, s.log[i], s.log[j]);
    }
    FrameKeepsBlocks(s, s');
  }

  /** The tables after routing, before the log is appended to. */
  function Tables(c: Config, s: State, key: Key, now: nat, newId: nat): State {
    Routed(c, s, key, now, newId, false).(refused := s.refused)
  }

  lemma TablesFrame(c: Config, s: State, key: Key, now: nat, newId: nat)
    requires Inverse(s) && newId !in s.spawned
    ensures LogFrame(s, Tables(c, s, key, now, newId))
    ensures Inverse(Tables(c, s, key, now, newId))
  {
    RouteKeepsInverse(c, s, key, now, newId, false);
    var s' := Tables(c, s, key, now, newId);
    forall k, m: nat | Buffered(s'.entries, k, m) ensures Buffered(s.entries, k, m) || m >= |s.arrived| {
      assert k in s.entries && s.entries[k].Stopping?;
    }
  }

  lemma RouteKeepsLog(c: Config, s: State, key: Key, now: nat, newId: nat, accepted: bool)
    requires Inverse(s) && LogInv(s) && newId !in s.spawned
    ensures LogInv(Routed(c, s, key, now, newId, accepted))
  {
    var s1 := Tables(c, s, key, now, newId);
    TablesFrame(c, s, key, now, newId);
    FrameKeepsLog(s, s1);
    var s' := Routed(c, s, key, now, newId, accepted);
    if accepted && (key !in s.entries || s.entries[key].Live?) {
      var actor := s1.entries[key].actor;
      forall i | 0 <= i < |s.log| && s.log[i].Message? ensures s.log[i].n < |s.arrived| {
        assert Addressed(s, s.log[i]);
      }
      AppendKeepsLog(s1, actor, |s.arrived|);
      assert s' == s1.(log := s1.log + [Message(actor, |s.arrived|)]);
    } else {
      FrameKeepsLog(s1, s');
    }
  }

  // ----- places

  lemma EnqueuedAfterAppend(log: seq<Post>, more: seq<Post>, n: nat)
    ensures Enqueued(log + more, n) <==> Enqueued(log, n) || Enqueued(more, n)
  {
    var all := log + more;
    if i :| 0 <= i < |log| && log[i].Message? && log[i].n == n {
      assert all[i] == log[i];
    }
    if i :| 0 <= i < |more| && more[i].Message? && more[i].n == n {
      assert all[|log| + i] == more[i];
    }
    if i :| 0 <= i < |all| && all[i].Message? && all[i].n == n {
      assert if i < |log| then all[i] == log[i] else all[i] == more[i - |log|];
    }
  }

  /** Nothing is known of a message that has not arrived. */
  lemma NotArrivedNowhere(c: Config, s: State, key: Key)
    requires LogInv(s) && BuffersInv(c, s)
    ensures !Enqueued(s.log, |s.arrived|) && !Buffered(s.entries, key, |s.arrived|)
  {
    forall i | 0 <= i < |s.log| && s.log[i].Message? ensures s.log[i].n < |s.arrived| {
      assert Addressed(s, s.log[i]);
    }
    if key in s.entries && s.entries[key].Stopping? {
      assert BufferOk(c, s, key, s.entries[key].buffered);
    }
  }

  lemma RouteLeavesBuffers(c: Config, s: State, key: Key, now: nat, newId: nat, accepted: bool, k: Key, n: nat)
    requires n < |s.arrived|
    ensures Buffered(Routed(c, s, key, now, newId, accepted).entries, k, n) <==> Buffered(s.entries, k, n)
  {
  }

  /** What routing accepts is at most the arriving message. */
  lemma RouteAccepts(c: Config, s: State, key: Key, now: nat, newId: nat, accepted: bool)
    ensures var log := Routed(c, s, key, now, newId, accepted).log;
      log == s.log || exists actor :: log == s.log + [Message(actor, |s.arrived|)]
  {
  }

  /** Routing moves no message but the arriving one. */
  lemma OthersStay(c: Config, s: State, key: Key, now: nat, newId: nat, accepted: bool, n: nat)
    requires n < |s.arrived| && Placed(s, n)
    ensures Placed(Routed(c, s, key, now, newId, accepted), n)
  {
    var s' := Routed(c, s, key, now, newId, accepted);
    RouteLeavesBuffers(c, s, key, now, newId, accepted, s.arrived[n], n);
    RouteAccepts(c, s, key, now, newId, accepted);
    if actor :| s'.log == s.log + [Message(actor, |s.arrived|)] {
      EnqueuedAfterAppend(s.log, [Message(actor, |s.arrived|)], n);
    }
    assert s'.arrived[n] == s.arrived[n] && (n in s'.refused <==> n in s.refused);
  }

  /** The arriving message takes exactly one place. */
  lemma ArrivingIsPlaced(c: Config, s: State, key: Key, now: nat, newId: nat, accepted: bool)
    requires LogInv(s) && BuffersInv(c, s) && RefusedArrived(s)
    ensures Placed(Routed(c, s, key, now, newId, accepted), |s.arrived|)
  {
    var s' := Routed(c, s, key, now, newId, accepted);
    var n: nat := |s.arrived|;
    NotArrivedNowhere(c, s, key);
    var more := s'.log[|s.log|..];
    EnqueuedAfterAppend(s.log, more, n);
    assert s'.log == s.log + more;
    assert more != [] ==> more[0].Message? && more[0].n == n;
  }

  lemma RouteKeepsPlaces(c: Config, s: State, key: Key, now: nat, newId: nat, accepted: bool)
    requires LogInv(s) && BuffersInv(c, s) && PlacesInv(s) && RefusedArrived(s)
    ensures var s' := Routed(c, s, key, now, newId, accepted); PlacesInv(s') && RefusedArrived(s')
  {
    var s' := Routed(c, s, key, now, newId, accepted);
    ArrivingIsPlaced(c, s, key, now, newId, accepted);
    forall n | 0 <= n < |s'.arrived| ensures Placed(s', n) {
      if n < |s.arrived| {
        OthersStay(c, s, key, now, newId, accepted, n);
      }
    }
  }

  // ----- an entity's terminated signal

  /** The host's tables without the terminated entity, before a replacement. */
  function Forgotten(s: State, actor: nat): State
    requires actor in s.keys
  {
    s.(keys := s.keys - {actor}, entries := s.entries - {s.keys[actor]})
  }

  lemma ForgetKeeps(c: Config, s: State, actor: nat)
    requires Inverse(s) && BuffersInv(c, s) && LogInv(s) && actor in s.keys
    ensures Inverse(Forgotten(s, actor)) && BuffersInv(c, Forgotten(s, actor)) && LogInv(Forgotten(s, actor))
  {
    var s' := Forgotten(s, actor);
    forall key | key in s'.entries && s'.entries[key].Stopping?
      ensures BufferOk(c, s', key, s'.entries[key].buffered)
    {
      assert BufferOk(c, s, key, s.entries[key].buffered);
    }
    assert LogFrame(s, s');
    FrameKeepsLog(s, s');
  }

  lemma RememberKeeps(c: Config, s: State, key: Key, newId: nat, now: nat)
    requires Inverse(s) && BuffersInv(c, s) && LogInv(s) && key !in s.entries && newId !in s.spawned
    ensures Inverse(Remember(s, key, newId, now)) && BuffersInv(c, Remember(s, key, newId, now))
    ensures LogInv(Remember(s, key, newId, now))
  {
    var s' := Remember(s, key, newId, now);
    forall k | k in s'.entries && s'.entries[k].Stopping? ensures BufferOk(c, s', k, s'.entries[k].buffered) {
      assert BufferOk(c, s, k, s.entries[k].buffered);
    }
    assert LogFrame(s, s');
    FrameKeepsLog(s, s');
  }

  /** A whole buffer can be appended behind everything accepted for its key before. */
  lemma {:induction false} PostsKeepLog(s: State, actor: nat, buffered: seq<nat>, accepts: nat -> bool)
    requires Inverse(s) && LogInv(s) && actor in s.keys && s.entries[s.keys[actor]].Live?
    requires forall k | 0 <= k < |buffered| :: buffered[k] < |s.arrived| && s.arrived[buffered[k]] == s.keys[actor]
    requires forall k, l | 0 <= k < l < |buffered| :: buffered[k] < buffered[l]
    requires forall k | 0 <= k < |buffered| :: AllBelow(s, s.keys[actor], buffered[k])
    ensures LogInv(s.(log := s.log + Posts(actor, buffered, accepts)))
    decreases buffered
  {
    if buffered == [] {
      assert s.log + Posts(actor, buffered, accepts) == s.log;
    } else {
      var s1 := s;
      if accepts(buffered[0]) {
        AppendKeepsLog(s, actor, buffered[0]);
        s1 := s.(log := s.log + [Message(actor, buffered[0])]);
        forall k | 0 < k < |buffered| ensures AllBelow(s1, s.keys[actor], buffered[k]) {
          assert AllBelow(s, s.keys[actor], buffered[k]);
        }
      }
      PostsKeepLog(s1, actor, buffered[1..], accepts);
      assert s1.log + Posts(actor, buffered[1..], accepts) == s.log + Posts(actor, buffered, accepts);
    }
  }

  lemma {:induction false} PostsAreAccepted(actor: nat, buffered: seq<nat>, accepts: nat -> bool, n: nat)
    ensures Enqueued(Posts(actor, buffered, accepts), n) <==> n in buffered && accepts(n)
    decreases buffered
  {
    if buffered != [] {
      var rest := Posts(actor, buffered[1..], accepts);
      PostsAreAccepted(actor, buffered[1..], accepts, n);
      var first := if accepts(buffered[0]) then [Message(actor, buffered[0])] else [];
      EnqueuedAfterAppend(first, rest, n);
      assert Enqueued(first, n) <==> accepts(buffered[0]) && n == buffered[0] by {
        assert first != [] ==> first[0].Message?;
      }
    }
  }

  /** The terminated entity left messages behind for its next incarnation. */
  predicate HasBuffer(s: State, actor: nat) {
    && actor in s.keys
    && s.keys[actor] in s.entries
    && s.entries[s.keys[actor]].Stopping?
    && s.entries[s.keys[actor]].buffered != []
  }

  function LeftBehind(s: State, actor: nat): seq<nat>
    requires HasBuffer(s, actor)
  {
    s.entries[s.keys[actor]].buffered
  }

  lemma GoneKeepsTables(c: Config, s: State, actor: nat, now: nat, newId: nat, accepts: nat -> bool)
    requires Inverse(s) && BuffersInv(c, s) && LogInv(s) && newId !in s.spawned
    ensures var s' := Gone(s, actor, now, newId, accepts); Inverse(s') && BuffersInv(c, s') && LogInv(s')
  {
    if actor in s.keys {
      ForgetKeeps(c, s, actor);
      if HasBuffer(s, actor) {
        var key := s.keys[actor];
        var buffered := s.entries[key].buffered;
        var s1 := Remember(Forgotten(s, actor), key, newId, now);
        RememberKeeps(c, Forgotten(s, actor), key, newId, now);
        BufferIsBehindLog(c, s, key);
        forall k | 0 <= k < |buffered| ensures AllBelow(s1, key, buffered[k]) {
          BelowInReplacement(s, s1, key, newId, buffered[k]);
        }
        PostsKeepLog(s1, newId, buffered, accepts);
        var s2 := s1.(log := s1.log + Posts(newId, buffered, accepts));
        RefusingKeeps(c, s2, Rejects(buffered, accepts));
        assert Gone(s, actor, now, newId, accepts) == s2.(refused := s2.refused + Rejects(buffered, accepts));
      }
    }
  }

  lemma BelowInReplacement(s: State, s1: State, key: Key, newId: nat, n: nat)
    requires LogInv(s) && AllBelow(s, key, n) && s1.log == s.log && s1.spawned == s.spawned[newId := key]
    requires newId !in s.spawned
    ensures AllBelow(s1, key, n)
  {
    forall i | 0 <= i < |s.log| ensures s.log[i].actor in s.spawned {
      assert Addressed(s, s.log[i]);
    }
  }

  lemma RefusingKeeps(c: Config, s: State, more: set<nat>)
    requires Inverse(s) && BuffersInv(c, s) && LogInv(s)
    ensures var s' := s.(refused := s.refused + more); Inverse(s') && BuffersInv(c, s') && LogInv(s')
  {
    var s' := s.(refused := s.refused + more);
    forall k | k in s'.entries && s'.entries[k].Stopping? ensures BufferOk(c, s', k, s'.entries[k].buffered) {
      assert BufferOk(c, s, k, s.entries[k].buffered);
    }
    FrameKeepsLog(s, s');
  }

  lemma BufferIsBehindLog(c: Config, s: State, key: Key)
    requires LogInv(s) && BuffersInv(c, s) && key in s.entries && s.entries[key].Stopping?
    ensures BufferOk(c, s, key, s.entries[key].buffered)
    ensures forall k | 0 <= k < |s.entries[key].buffered| :: AllBelow(s, key, s.entries[key].buffered[k])
  {
    var buffered := s.entries[key].buffered;
    forall i, k | 0 <= i < |s.log| && 0 <= k < |buffered| && s.log[i].Message? && s.log[i].actor in s.spawned &&
                  s.spawned[s.log[i].actor] == key
      ensures s.log[i].n < buffered[k]
    {
      assert BeforeBuffer(s, s.log[i]) && Buffered(s.entries, key, buffered[k]);
    }
  }

  /** A terminated signal moves the entity's buffer, message by message, and nothing else. */
  lemma GoneKeepsPlaces(c: Config, s: State, actor: nat, now: nat, newId: nat, accepts: nat -> bool, n: nat)
    requires Inverse(s) && BuffersInv(c, s) && n < |s.arrived| && Placed(s, n)
    ensures Placed(Gone(s, actor, now, newId, accepts), n)
  {
    if HasBuffer(s, actor) {
      var key := s.keys[actor];
      var buffered := s.entries[key].buffered;
      var s' := Gone(s, actor, now, newId, accepts);
      assert BufferOk(c, s, key, buffered);
      PostsAreAccepted(newId, buffered, accepts, n);
      EnqueuedAfterAppend(s.log, Posts(newId, buffered, accepts), n);
      if s.arrived[n] == key {
        assert !Buffered(s'.entries, key, n);
        assert Buffered(s.entries, key, n) <==> n in buffered;
      } else {
        assert Buffered(s'.entries, s.arrived[n], n) <==> Buffered(s.entries, s.arrived[n], n);
        assert n !in buffered;
      }
    } else {
      assert Buffered(Gone(s, actor, now, newId, accepts).entries, s.arrived[n], n)
        <==> Buffered(s.entries, s.arrived[n], n);
    }
  }

  lemma GoneKeepsInv(c: Config, s: State, actor: nat, now: nat, newId: nat, accepts: nat -> bool)
    requires HostInv(c, s) && RefusedArrived(s) && newId !in s.spawned
    ensures var s' := Gone(s, actor, now, newId, accepts); HostInv(c, s') && RefusedArrived(s')
  {
    var s' := Gone(s, actor, now, newId, accepts);
    GoneKeepsTables(c, s, actor, now, newId, accepts);
    forall n | 0 <= n < |s.arrived| ensures Placed(s', n) {
      GoneKeepsPlaces(c, s, actor, now, newId, accepts, n);
    }
    if HasBuffer(s, actor) {
      assert BufferOk(c, s, s.keys[actor], s.entries[s.keys[actor]].buffered);
    }
  }

  // ----- the sweep

  lemma SweepKeyKeepsTables(c: Config, s: State, key: Key, now: nat, accepts: nat -> bool)
    requires Inverse(s) && BuffersInv(c, s)
    ensures var s' := SweptKey(c, s, key, now, accepts); Inverse(s') && BuffersInv(c, s')
  {
    var s' := SweptKey(c, s, key, now, accepts);
    forall k | k in s'.entries && s'.entries[k].Stopping? ensures BufferOk(c, s', k, s'.entries[k].buffered) {
      assert k in s.entries && s.entries[k].Stopping? ==> BufferOk(c, s, k, s.entries[k].buffered);
    }
  }

  lemma SweepKeyKeepsLog(c: Config, s: State, key: Key, now: nat, accepts: nat -> bool)
    requires Inverse(s) && LogInv(s)
    ensures LogInv(SweptKey(c, s, key, now, accepts))
  {
    var s' := SweptKey(c, s, key, now, accepts);
    if s' != s {
      var s1 := s'.(log := s.log);
      assert LogFrame(s, s1);
      FrameKeepsLog(s, s1);
      var actor := s.entries[key].actor;
      forall i | 0 <= i < |s.log|
        ensures Addressed(s', s.log[i]) && BeforeBuffer(s', s.log[i]) && AskedIsStopping(s', s.log[i])
        ensures InOrder(s', s.log[i], Passivate(actor))
      {
        assert Addressed(s1, s.log[i]) && BeforeBuffer(s1, s.log[i]) && AskedIsStopping(s1, s.log[i]);
        assert AskedIsStopping(s, s.log[i]);
      }
      forall i, j | 0 <= i < j < |s.log| ensures InOrder(s', s.log[i], s.log[j]) {
        assert Addressed(s1, s.log[i]) && Addressed(s1, s.log[j]) && InOrder(s1, s.log[i], s.log[j]);
      }
      AppendKeepsBlocks(s1, Passivate(actor));
      assert s' == s1.(log := s1.log + [Passivate(actor)]);
    }
  }

  lemma SweepKeyKeepsPlaces(c: Config, s: State, key: Key, now: nat, accepts: nat -> bool, n: nat)
    requires n < |s.arrived| && Placed(s, n)
    ensures Placed(SweptKey(c, s, key, now, accepts), n)
  {
    var s' := SweptKey(c, s, key, now, accepts);
    assert Buffered(s'.entries, s.arrived[n], n) <==> Buffered(s.entries, s.arrived[n], n);
    if s' != s {
      EnqueuedAfterAppend(s.log, [Passivate(s.entries[key].actor)], n);
    }
  }

  lemma {:induction false} SweepKeepsInv(c: Config, s: State, order: seq<Key>, now: nat, accepts: nat -> bool)
    requires HostInv(c, s) && RefusedArrived(s)
    ensures var s' := Swept(c, s, order, now, accepts);
      && HostInv(c, s') && RefusedArrived(s')
      && s'.keys == s.keys && s'.spawned == s.spawned && s'.ticker == s.ticker && s'.arrived == s.arrived
    decreases order
  {
    if order != [] {
      var s1 := SweptKey(c, s, order[0], now, accepts);
      SweepKeyKeepsTables(c, s, order[0], now, accepts);
      SweepKeyKeepsLog(c, s, order[0], now, accepts);
      forall n | 0 <= n < |s.arrived| ensures Placed(s1, n) {
        SweepKeyKeepsPlaces(c, s, order[0], now, accepts, n);
      }
      SweepKeepsInv(c, s1, order[1..], now, accepts);
    }
  }

  /**
   * A sweep asks exactly the visited live entities that got no message for the idle timeout and
   * whose mailbox accepts.
   */
  lemma {:induction false} SweepAsksTheIdle(
      c: Config, s: State, order: seq<Key>, now: nat, accepts: nat -> bool, key: Key)
    requires key in s.entries
    ensures var e := s.entries[key]; var s' := Swept(c, s, order, now, accepts);
      && key in s'.entries
      && s'.entries[key] ==
         if && key in order && e.Live? && accepts(e.actor)
            && c.idleTimeout.Some? && now >= e.lastMessage + c.idleTimeout.value
         then Stopping(e.actor, []) else e
    decreases order
  {
    if order != [] {
      SweepAsksTheIdle(c, SweptKey(c, s, order[0], now, accepts), order[1..], now, accepts, key);
    }
  }

  lemma TickingKeepsInv(c: Config, s: State, newId: nat)
    requires HostInv(c, s) && RefusedArrived(s)
    ensures HostInv(c, Ticking(c, s, newId)) && RefusedArrived(Ticking(c, s, newId))
  {
    var s' := Ticking(c, s, newId);
    RefusingKeeps(c, s, {});
    forall k | k in s'.entries && s'.entries[k].Stopping? ensures BufferOk(c, s', k, s'.entries[k].buffered) {
      assert BufferOk(c, s, k, s.entries[k].buffered);
    }
    FrameKeepsLog(s, s');
    forall n | 0 <= n < |s.arrived| ensures Placed(s', n) {
      assert Placed(s, n);
    }
  }

  // ----- whole runs

  lemma RouteStep(c: Config, w: World, act: Action)
    requires WorldInv(c, w) && Enabled(w, act) && act.Route?
    ensures WorldInv(c, Next(c, w, act))
  {
    RouteKeepsInverse(c, w.host, act.key, act.now, act.newId, act.accepted);
    RouteKeepsBuffers(c, w.host, act.key, act.now, act.newId, act.accepted);
    RouteKeepsLog(c, w.host, act.key, act.now, act.newId, act.accepted);
    RouteKeepsPlaces(c, w.host, act.key, act.now, act.newId, act.accepted);
  }

  lemma SignalStep(c: Config, w: World, act: Action)
    requires WorldInv(c, w) && Enabled(w, act) && (act.EntitySignal? || act.TickerSignal?)
    ensures WorldInv(c, Next(c, w, act))
  {
    if act.EntitySignal? {
      GoneKeepsInv(c, w.host, act.actor, act.now, act.newId, act.accepts);
    } else {
      SweepKeepsInv(c, w.host, act.order, act.now, act.accepts);
      TickingKeepsInv(c, Swept(c, w.host, act.order, act.now, act.accepts), act.newId);
    }
  }

  lemma DieStep(c: Config, w: World, actor: nat)
    requires WorldInv(c, w)
    ensures WorldInv(c, w.(alive := w.alive - {actor}))
  {
  }

  lemma StartInv(c: Config, w: World)
    requires Start(c, w)
    ensures WorldInv(c, w)
  {
  }

  lemma StepKeepsInv(c: Config, w: World, act: Action)
    requires WorldInv(c, w) && Enabled(w, act)
    ensures WorldInv(c, Next(c, w, act))
  {
    match act
    case Route(_, _, _, _) => RouteStep(c, w, act);
    case Die(actor) => DieStep(c, w, actor);
    case _ => SignalStep(c, w, act);
  }

  lemma {:induction false} RunInv(c: Config, run: seq<World>, acts: seq<Action>, k: nat)
    requires IsRun(c, run, acts) && k < |run|
    ensures WorldInv(c, run[k])
  {
    if k == 0 {
      StartInv(c, run[0]);
    } else {
      RunInv(c, run, acts, k - 1);
      StepKeepsInv(c, run[k - 1], acts[k - 1]);
    }
  }

  /** Every routed message is in exactly one place: accepted by one mailbox, in its key's buffer, or dead-lettered. */
  lemma HostConserves(c: Config, run: seq<World>, acts: seq<Action>, k: nat, n: nat)
    requires IsRun(c, run, acts) && k < |run| && n < |run[k].host.arrived|
    ensures Placed(run[k].host, n)
    ensures forall i, j | 0 <= i < |run[k].host.log| && 0 <= j < |run[k].host.log| &&
              run[k].host.log[i] == Message(run[k].host.log[i].actor, n) &&
              run[k].host.log[j] == Message(run[k].host.log[j].actor, n) :: i == j
    ensures forall key | key in run[k].host.entries && run[k].host.entries[key].Stopping? ::
              BufferOk(c, run[k].host, key, run[k].host.entries[key].buffered)
  {
    RunInv(c, run, acts, k);
    var s := run[k].host;
    forall i, j | 0 <= i < j < |s.log|
      ensures !(s.log[i].Message? && s.log[j].Message? && s.log[i].n == s.log[j].n)
    {
      assert Addressed(s, s.log[i]) && Addressed(s, s.log[j]) && InOrder(s, s.log[i], s.log[j]);
    }
  }

  /**
   * Messages for one key are accepted in arrival order with the current buffer behind them, and a
   * mailbox gets nothing after its passivate message.
   */
  lemma HostKeepsOrder(c: Config, run: seq<World>, acts: seq<Action>, k: nat, i: nat, j: nat)
    requires IsRun(c, run, acts) && k < |run| && i < j < |run[k].host.log|
    ensures var s := run[k].host;
      && Addressed(s, s.log[i]) && Addressed(s, s.log[j])
      && InOrder(s, s.log[i], s.log[j])
      && BeforeBuffer(s, s.log[i]) && BeforeBuffer(s, s.log[j])
  {
    RunInv(c, run, acts, k);
  }

  /** Incarnation after incarnation: one that another took over from never gets a message again. */
  lemma IncarnationsFollowEachOther(c: Config, run: seq<World>, acts: seq<Action>, k: nat, i: nat, j: nat, l: nat)
    requires IsRun(c, run, acts) && k < |run| && i < j < l < |run[k].host.log|
    ensures var s := run[k].host;
      && s.log[i].actor in s.spawned && s.log[j].actor in s.spawned && s.log[l].actor in s.spawned
      && Contiguous(s, s.log[i], s.log[j], s.log[l])
  {
    RunInv(c, run, acts, k);
    var s := run[k].host;
    assert Addressed(s, s.log[i]) && Addressed(s, s.log[j]) && Addressed(s, s.log[l]);
  }

  /**
   * At most one incarnation per key: the host knows exactly the entities whose signal it has not
   * handled, and two of those spawned for one key are the same entity.
   */
  lemma SingleIncarnation(c: Config, run: seq<World>, acts: seq<Action>, k: nat, a: nat, b: nat)
    requires IsRun(c, run, acts) && k < |run|
    requires a in run[k].host.spawned && a !in run[k].handled && b in run[k].host.spawned && b !in run[k].handled
    ensures run[k].host.spawned[a] == run[k].host.spawned[b] ==> a == b
    ensures Inverse(run[k].host) && run[k].host.keys.Keys == run[k].host.spawned.Keys - run[k].handled
    ensures run[k].alive <= run[k].host.spawned.Keys - run[k].handled
  {
    RunInv(c, run, acts, k);
  }

  /** With an idle timeout exactly one ticker is outstanding, without one none ever is. */
  lemma OneTicker(c: Config, run: seq<World>, acts: seq<Action>, k: nat)
    requires IsRun(c, run, acts) && k < |run|
    ensures |run[k].tickers| == if c.idleTimeout.Some? then 1 else 0
    ensures c.idleTimeout.Some? ==> run[k].host.ticker.Some? && run[k].host.ticker.value in run[k].tickers
  {
    RunInv(c, run, acts, k);
  }

  lemma {:induction false} AllPosted(actor: nat, buffered: seq<nat>, accepts: nat -> bool)
    requires forall i | 0 <= i < |buffered| :: accepts(buffered[i])
    ensures Posts(actor, buffered, accepts) ==
      seq(|buffered|, i requires 0 <= i < |buffered| => Message(actor, buffered[i]))
    decreases buffered
  {
    if buffered != [] {
      assert forall i | 0 <= i < |buffered| - 1 :: buffered[1..][i] == buffered[i + 1];
      AllPosted(actor, buffered[1..], accepts);
    }
  }

  lemma {:induction false} SweepAppends(c: Config, s: State, order: seq<Key>, now: nat, accepts: nat -> bool)
    ensures s.log <= Swept(c, s, order, now, accepts).log
    decreases order
  {
    if order != [] {
      SweepAppends(c, SweptKey(c, s, order[0], now, accepts), order[1..], now, accepts);
    }
  }

  /** What mailboxes accepted is only ever appended to. */
  lemma {:induction false} LogGrows(c: Config, run: seq<World>, acts: seq<Action>, k: nat, l: nat)
    requires IsRun(c, run, acts) && k <= l < |run|
    ensures run[k].host.log <= run[l].host.log
    decreases l
  {
    if k < l {
      LogGrows(c, run, acts, k, l - 1);
      var w, act := run[l - 1], acts[l - 1];
      if act.TickerSignal? {
        SweepAppends(c, w.host, act.order, act.now, act.accepts);
      }
      assert w.host.log <= Next(c, w, act).host.log;
    }
  }

  /**
   * When the signal of an entity is handled that left messages behind, its replacement is new to
   * every mailbox log and, if it accepts them, gets exactly the buffer in order; and whatever
   * arrives later stands behind the buffer for the rest of the run.
   */
  lemma ReplacementGetsBuffer(c: Config, run: seq<World>, acts: seq<Action>, k: nat, l: nat)
    requires IsRun(c, run, acts) && k < |acts| && k < l < |run|
    requires acts[k].EntitySignal? && HasBuffer(run[k].host, acts[k].actor)
    requires forall n | n in LeftBehind(run[k].host, acts[k].actor) :: acts[k].accepts(n)
    ensures var s, s', newId := run[k].host, run[k + 1].host, acts[k].newId;
      var key, buffered := s.keys[acts[k].actor], LeftBehind(s, acts[k].actor);
      && s'.log == s.log + seq(|buffered|, i requires 0 <= i < |buffered| => Message(newId, buffered[i]))
      && key in s'.entries && s'.entries[key] == Live(newId, acts[k].now)
      && (forall i | 0 <= i < |s.log| :: s.log[i].actor != newId)
    ensures run[k + 1].host.log <= run[l].host.log
    ensures forall i | 0 <= i < |run[l].host.log| && run[l].host.log[i].Message? &&
              run[l].host.log[i].n >= |run[k].host.arrived| :: i >= |run[k + 1].host.log|
  {
    RunInv(c, run, acts, k);
    RunInv(c, run, acts, k + 1);
    LogGrows(c, run, acts, k + 1, l);
    var s, s' := run[k].host, run[k + 1].host;
    var buffered := LeftBehind(s, acts[k].actor);
    AllPosted(acts[k].newId, buffered, acts[k].accepts);
    forall i | 0 <= i < |s.log| ensures s.log[i].actor != acts[k].newId {
      assert Addressed(s, s.log[i]);
    }
    forall i | 0 <= i < |s'.log| && s'.log[i].Message? ensures s'.log[i].n < |s.arrived| {
      assert Addressed(s', s'.log[i]);
    }
  }

  // ----- what each handler does

  /** The key's entity has been asked to stop and the buffer has no room left. */
  predicate NoRoom(c: Config, s: State, key: Key) {
    key in s.entries && s.entries[key].Stopping? && |s.entries[key].buffered| >= c.buffer
  }

  /** The message goes straight to an entity: the live one, or one spawned for it. */
  predicate GoesToEntity(s: State, key: Key) {
    key !in s.entries || s.entries[key].Live?
  }

  /**
   * A routed message is dead-lettered if and only if the buffer is full or the entity's mailbox did
   * not accept. Otherwise it is the last in the buffer of a stopping entity, or the last one the
   * live entity accepted, an entity that is spawned if there was none. Either way the live entity
   * counts as used now, and no other key is affected.
   */
  lemma RouteOutcome(c: Config, run: seq<World>, acts: seq<Action>, k: nat)
    requires IsRun(c, run, acts) && k < |acts| && acts[k].Route?
    ensures var (s, s', key) := (run[k].host, run[k + 1].host, acts[k].key);
      var n := |s.arrived|;
      && s'.arrived == s.arrived + [key] && n !in s.refused
      && s'.refused == s.refused + (if n in s'.refused then {n} else {})
      && (n in s'.refused <==> NoRoom(c, s, key) || (GoesToEntity(s, key) && !acts[k].accepted))
      && key in s'.entries
      && (forall other | other != key ::
            && (other in s'.entries <==> other in s.entries)
            && (other in s.entries ==> s'.entries[other] == s.entries[other]))
      && (if GoesToEntity(s, key) then
            && s'.entries[key].Live? && s'.entries[key].lastMessage == acts[k].now
            && s'.log == s.log + (if acts[k].accepted then [Message(s'.entries[key].actor, n)] else [])
            && (key in s.entries ==> s'.entries[key].actor == s.entries[key].actor && s'.spawned == s.spawned)
            && (key !in s.entries ==> s'.entries[key].actor !in s.spawned && s'.entries[key].actor in s'.spawned)
          else
            && s'.entries[key].Stopping? && s'.entries[key].actor == s.entries[key].actor
            && s'.log == s.log && s'.spawned == s.spawned
            && s'.entries[key].buffered == s.entries[key].buffered + (if NoRoom(c, s, key) then [] else [n]))
  {
    RunInv(c, run, acts, k);
  }

  /**
   * The signal of an entity that left no messages behind vacates its key: nothing is sent, refused or
   * spawned, and no other key is affected.
   */
  lemma VacatedWithoutBuffer(c: Config, run: seq<World>, acts: seq<Action>, k: nat)
    requires IsRun(c, run, acts) && k < |acts| && acts[k].EntitySignal?
    requires acts[k].actor in run[k].host.keys && !HasBuffer(run[k].host, acts[k].actor)
    ensures var (s, s') := (run[k].host, run[k + 1].host);
      && s'.entries == s.entries - {s.keys[acts[k].actor]} && s'.keys == s.keys - {acts[k].actor}
      && s'.log == s.log && s'.refused == s.refused && s'.spawned == s.spawned && s'.arrived == s.arrived
  {
    RunInv(c, run, acts, k);
  }

  /** The signal of an actor that is not hosted, or not anymore, changes nothing. */
  lemma UnknownSignalIgnored(c: Config, run: seq<World>, acts: seq<Action>, k: nat)
    requires IsRun(c, run, acts) && k < |acts| && acts[k].EntitySignal? && acts[k].actor !in run[k].host.keys
    ensures run[k + 1].host == run[k].host && run[k + 1].alive == run[k].alive
  {
    RunInv(c, run, acts, k);
  }

  /** An entity is alive from the step that spawned it until it dies. */
  lemma {:induction false} AliveUntilDeath(c: Config, run: seq<World>, acts: seq<Action>, k: nat, x: nat)
    requires IsRun(c, run, acts) && k < |run|
    ensures x in run[k].alive <==> x in run[k].host.spawned && forall m | 0 <= m < k :: acts[m] != Die(x)
  {
    if k > 0 {
      AliveUntilDeath(c, run, acts, k - 1, x);
      RunInv(c, run, acts, k - 1);
      SpawnedStep(c, run[k - 1], acts[k - 1]);
      if x !in run[k - 1].host.spawned {
        NotDeadYet(c, run, acts, k - 1, x);
      }
    }
  }

  lemma SpawnedStep(c: Config, w: World, act: Action)
    requires WorldInv(c, w) && Enabled(w, act)
    ensures var w' := Next(c, w, act);
      && w.host.spawned.Keys <= w'.host.spawned.Keys
      && w'.alive == (if act.Die? then w.alive - {act.actor} else w.alive) + Spawned(w.host, w'.host)
  {
    if act.TickerSignal? {
      SweepKeepsInv(c, w.host, act.order, act.now, act.accepts);
    }
  }

  lemma {:induction false} NotDeadYet(c: Config, run: seq<World>, acts: seq<Action>, k: nat, x: nat)
    requires IsRun(c, run, acts) && k < |run| && x !in run[k].host.spawned
    ensures forall m | 0 <= m < k :: acts[m] != Die(x)
  {
    if k > 0 {
      RunInv(c, run, acts, k - 1);
      SpawnedStep(c, run[k - 1], acts[k - 1]);
      NotDeadYet(c, run, acts, k - 1, x);
    }
  }

  /** The ticker's signal sweeps: of the hosted entities it asks exactly the idle ones that accept. */
  lemma TickSweeps(c: Config, run: seq<World>, acts: seq<Action>, k: nat, key: Key)
    requires IsRun(c, run, acts) && k < |acts| && acts[k].TickerSignal? && key in run[k].host.entries
    ensures var (e, s', act) := (run[k].host.entries[key], run[k + 1].host, acts[k]);
      && key in s'.entries
      && s'.entries[key] ==
         (if e.Live? && c.idleTimeout.Some? && act.now >= e.lastMessage + c.idleTimeout.value && act.accepts(e.actor)
          then Stopping(e.actor, []) else e)
      && s'.keys == run[k].host.keys && s'.spawned == run[k].host.spawned && s'.ticker == Some(act.newId)
  {
    RunInv(c, run, acts, k);
    var act := acts[k];
    SweepAsksTheIdle(c, run[k].host, act.order, act.now, act.accepts, key);
    SweepKeepsInv(c, run[k].host, act.order, act.now, act.accepts);
  }

  // ----- who is stopping was asked to

  ghost predicate Asked(s: State) {
    forall key | key in s.entries && s.entries[key].Stopping? :: Passivate(s.entries[key].actor) in s.log
  }

  /** Whoever is stopping afterwards was stopping before, as the same entity, or is asked just now. */
  ghost predicate AsksMore(s: State, s': State) {
    && s.log <= s'.log
    && forall key | key in s'.entries && s'.entries[key].Stopping? ::
         || Passivate(s'.entries[key].actor) in s'.log
         || (key in s.entries && s.entries[key].Stopping? && s.entries[key].actor == s'.entries[key].actor)
  }

  lemma AskedKept(s: State, s': State)
    requires Asked(s) && AsksMore(s, s')
    ensures Asked(s')
  {
    forall p | p in s.log ensures p in s'.log {
      var i :| 0 <= i < |s.log| && s.log[i] == p;
      assert s'.log[i] == p;
    }
  }

  lemma {:induction false} SweepAsked(c: Config, s: State, order: seq<Key>, now: nat, accepts: nat -> bool)
    requires Asked(s)
    ensures Asked(Swept(c, s, order, now, accepts))
    decreases order
  {
    if order != [] {
      var s' := SweptKey(c, s, order[0], now, accepts);
      if s' != s {
        assert s'.log[|s.log|] == Passivate(s.entries[order[0]].actor);
      }
      AskedKept(s, s');
      SweepAsked(c, s', order[1..], now, accepts);
    }
  }

  lemma StepAsked(c: Config, w: World, act: Action)
    requires WorldInv(c, w) && Asked(w.host) && Enabled(w, act)
    ensures Asked(Next(c, w, act).host)
  {
    if act.TickerSignal? {
      SweepAsked(c, w.host, act.order, act.now, act.accepts);
    } else {
      AskedKept(w.host, Next(c, w, act).host);
    }
  }

  /** An entity the host treats as stopping was sent its passivate message. */
  lemma {:induction false} StoppingWasAsked(c: Config, run: seq<World>, acts: seq<Action>, k: nat)
    requires IsRun(c, run, acts) && k < |run|
    ensures Asked(run[k].host)
  {
    if k > 0 {
      StoppingWasAsked(c, run, acts, k - 1);
      RunInv(c, run, acts, k - 1);
      StepAsked(c, run[k - 1], acts[k - 1]);
    }
  }
}
