/**
 * A whole actor system as interleaved steps of its actors' tasks: spawning, telling, watching with
 * its real substeps, the run loop, restarts and the termination sequence. Sends that are refused,
 * e.g. by a full mailbox, are steps not taken; terminated signals are never refused by a live
 * mailbox.
 */
module ActorTree {
  import opened Prelude
  import opened Mailboxes

  datatype Item = Message(from: Option<nat>, body: nat) | Terminated(other: nat)

  datatype Phase =
    | Initializing
    | Waiting
    | Receiving
    | Restarting
    | BackingOff
    | Draining
    | Deregistering(rest: set<nat>)
    | StoppingChildren
    | Dropping
    | Signaling(untold: set<Watcher>)
    | Dead

  /** Where inside `watch` or `unwatch` the actor's task is. */
  datatype Call = NoCall | WatchAdded(t: nat, ok: bool) | SelfSignal(t: nat) | Unwatched(t: nat)

  /**
   * `log` is everything ever enqueued in the mailbox and `taken` how much of it was dequeued;
   * `gen` numbers the stop channels handed to children; `told` is the set termination took.
   */
  datatype Actor = Actor(
    parent: Option<nat>,
    parentGen: nat,
    depth: nat,
    gen: nat,
    phase: Phase,
    call: Call,
    log: seq<Item>,
    taken: nat,
    registry: Registry,
    watched: set<nat>,
    told: set<Watcher>)

  datatype Sink = Unregistered | Registered | Resolved

  datatype System = System(actors: map<nat, Actor>, root: nat, sink: Sink)

  /** Steps of a task that touch nothing but its own actor. */
  datatype OwnAction =
    // inside `watch` and `unwatch`
    | WatchInsert
    | WatchSelfSignal
    | UnwatchRemove(t: nat)
    // the run loop
    | InitDone
    | Take
    | ReceiveDone
    | Restart
    | OldChildrenGone
    | Reinit
    | Terminate
    // the termination sequence
    | Disconnect
    | StopChildren
    | ChildrenGone
    | TakeWatchers
    | End

  datatype Action =
    | Own(w: nat, own: OwnAction)
    | Spawn(w: nat, child: nat)
    | Send(w: nat, to: nat, body: nat)
    | SendFromOutside(to: nat, body: nat)
    | WatchAdd(w: nat, t: nat)
    | UnwatchDeregister(w: nat)
    | Deregister(w: nat, t: nat)
    | Signal(w: nat, watcher: Watcher)
    | WatchRoot

  /** The actor's own code runs, with its context at hand. */
  predicate InUserCode(p: Phase) {
    p.Initializing? || p.Receiving?
  }

  /** The receiving half of the mailbox exists, so sends succeed. */
  predicate Connected(p: Phase) {
    p.Initializing? || p.Waiting? || p.Receiving? || p.Restarting? || p.BackingOff? || p.Draining?
  }

  /** The run loop has not begun to terminate. */
  predicate Running(p: Phase) {
    Connected(p) && !p.Draining?
  }

  /** Registration is closed: the watchers have been taken. */
  predicate Closed(p: Phase) {
    p.Signaling? || p.Dead?
  }

  /** The stop signal is sent and the channel not yet closed. */
  predicate AwaitsChildren(p: Phase) {
    p.Restarting? || p.StoppingChildren?
  }

  function Newborn(parent: Option<nat>, parentGen: nat, depth: nat): Actor {
    Actor(parent, parentGen, depth, 0, Initializing, NoCall, [], 0, Some({}), {}, {})
  }

  function Put(s: System, w: nat, a: Actor): System {
    s.(actors := s.actors[w := a])
  }

  /** A send to a mailbox whose receiver is gone fails. */
  function Posted(a: Actor, item: Item): Actor {
    if Connected(a.phase) then a.(log := a.log + [item]) else a
  }

  function Enqueue(s: System, w: nat, item: Item): System
    requires w in s.actors
  {
    Put(s, w, Posted(s.actors[w], item))
  }

  function SetRegistry(s: System, t: nat, r: Registry): System
    requires t in s.actors
  {
    Put(s, t, s.actors[t].(registry := r))
  }

  predicate ChildOf(s: System, c: nat, p: nat) {
    c in s.actors && s.actors[c].parent == Some(p)
  }

  /** The stop channel of the replaced generation is closed: all its receivers are gone. */
  ghost predicate ChannelClosed(s: System, w: nat)
    requires w in s.actors
  {
    forall c | ChildOf(s, c, w) && s.actors[c].parentGen + 1 == s.actors[w].gen :: s.actors[c].phase.Dead?
  }

  ghost predicate CanOwn(s: System, w: nat, own: OwnAction) {
    w in s.actors && var a := s.actors[w];
    match own
    case WatchInsert => a.call.WatchAdded?
    case WatchSelfSignal => a.call.SelfSignal?
    case UnwatchRemove(t) => InUserCode(a.phase) && a.call.NoCall? && t in a.watched
    case InitDone => a.phase.Initializing? && a.call.NoCall?
    case Take => a.phase.Waiting? && a.taken < |a.log|
    case ReceiveDone => a.phase.Receiving? && a.call.NoCall?
    case Restart => InUserCode(a.phase) && a.call.NoCall?
    case OldChildrenGone => a.phase.Restarting? && ChannelClosed(s, w)
    case Reinit => a.phase.BackingOff?
    case Terminate => Running(a.phase) && !a.phase.Restarting? && a.call.NoCall?
    case Disconnect => a.phase.Draining?
    case StopChildren => a.phase == Deregistering({})
    case ChildrenGone => a.phase.StoppingChildren? && ChannelClosed(s, w)
    case TakeWatchers => a.phase.Dropping? && a.registry.Some?
    case End => a.phase == Signaling({})
  }

  function AfterOwn(a: Actor, own: OwnAction): Actor
    requires own.WatchInsert? ==> a.call.WatchAdded?
    requires own.WatchSelfSignal? ==> a.call.SelfSignal?
    requires own.Take? ==> a.taken < |a.log|
    requires own.TakeWatchers? ==> a.registry.Some?
  {
    match own
    case WatchInsert =>
      a.(watched := a.watched + {a.call.t}, call := if a.call.ok then NoCall else SelfSignal(a.call.t))
    case WatchSelfSignal => Posted(a, Terminated(a.call.t)).(call := NoCall)
    case UnwatchRemove(t) => a.(watched := a.watched - {t}, call := Unwatched(t))
    case InitDone => a.(phase := Waiting)
    case Take => Taken(a)
    case ReceiveDone => a.(phase := Waiting)
    case Restart => a.(phase := Restarting, gen := a.gen + 1)
    case OldChildrenGone => a.(phase := BackingOff)
    case Reinit => a.(phase := Initializing)
    case Terminate => a.(phase := Draining, taken := |a.log|)
    case Disconnect => a.(phase := Deregistering(a.watched), watched := {})
    case StopChildren => a.(phase := StoppingChildren, gen := a.gen + 1)
    case ChildrenGone => a.(phase := Dropping)
    case TakeWatchers => a.(phase := Signaling(a.registry.value), registry := None, told := a.registry.value)
    case End => a.(phase := Dead)
  }

  ghost predicate Enabled(s: System, act: Action) {
    match act
    case Own(w, own) => CanOwn(s, w, own)
    case Spawn(w, child) =>
      w in s.actors && InUserCode(s.actors[w].phase) && s.actors[w].call.NoCall? && child !in s.actors
    case Send(w, to, _) => w in s.actors && !Closed(s.actors[w].phase) && to in s.actors
    case SendFromOutside(to, _) => to in s.actors
    case WatchAdd(w, t) =>
      w in s.actors && InUserCode(s.actors[w].phase) && s.actors[w].call.NoCall? && t in s.actors
    case UnwatchDeregister(w) => w in s.actors && s.actors[w].call.Unwatched? && s.actors[w].call.t in s.actors
    case Deregister(w, t) =>
      w in s.actors && s.actors[w].phase.Deregistering? && t in s.actors[w].phase.rest && t in s.actors
    case Signal(w, watcher) =>
      w in s.actors && s.actors[w].phase.Signaling? && watcher in s.actors[w].phase.untold
    case WatchRoot => s.sink.Unregistered? && s.root in s.actors
  }

  ghost function Next(s: System, act: Action): System
    requires Enabled(s, act)
  {
    match act
    case Own(w, own) => Put(s, w, AfterOwn(s.actors[w], own))
    case Spawn(w, child) => Put(s, child, Newborn(Some(w), s.actors[w].gen, s.actors[w].depth + 1))
    case Send(w, to, body) => Enqueue(s, to, Message(Some(w), body))
    case SendFromOutside(to, body) => Enqueue(s, to, Message(None, body))
    case WatchAdd(w, t) => AfterWatchAdd(s, w, t)
    case UnwatchDeregister(w) => AfterUnwatch(s, w)
    case Deregister(w, t) => AfterDeregister(s, w, t)
    case Signal(w, watcher) => AfterSignal(s, w, watcher)
    case WatchRoot => AfterWatchRoot(s)
  }

  function AfterWatchAdd(s: System, w: nat, t: nat): System
    requires w in s.actors && t in s.actors
  {
    var open := s.actors[t].registry.Some?;
    var s1 := SetRegistry(s, t, Added(s.actors[t].registry, ActorWatcher(w)));
    Put(s1, w, s1.actors[w].(call := WatchAdded(t, open)))
  }

  function AfterUnwatch(s: System, w: nat): System
    requires w in s.actors && s.actors[w].call.Unwatched? && s.actors[w].call.t in s.actors
  {
    var t := s.actors[w].call.t;
    var s1 := SetRegistry(s, t, Removed(s.actors[t].registry, ActorWatcher(w)));
    Put(s1, w, s1.actors[w].(call := NoCall))
  }

  function AfterDeregister(s: System, w: nat, t: nat): System
    requires w in s.actors && s.actors[w].phase.Deregistering? && t in s.actors
  {
    var s1 := SetRegistry(s, t, Removed(s.actors[t].registry, ActorWatcher(w)));
    Put(s1, w, s1.actors[w].(phase := Deregistering(s.actors[w].phase.rest - {t})))
  }

  function AfterSignal(s: System, w: nat, watcher: Watcher): System
    requires w in s.actors && s.actors[w].phase.Signaling?
  {
    var s1 := Put(s, w, s.actors[w].(phase := Signaling(s.actors[w].phase.untold - {watcher})));
    match watcher
    case SystemWatcher => s1.(sink := Resolved)
    case ActorWatcher(v) => if v in s1.actors then Enqueue(s1, v, Terminated(w)) else s1
  }

  function AfterWatchRoot(s: System): System
    requires s.root in s.actors
  {
    var registry := s.actors[s.root].registry;
    if registry.Some?
    then SetRegistry(s, s.root, Added(registry, SystemWatcher)).(sink := Registered)
    else s.(sink := Resolved)
  }

  /** The run loop's filter: a terminated signal is handed on only if its sender is watched, ending the watch. */
  function Taken(a: Actor): Actor
    requires a.taken < |a.log|
  {
    match a.log[a.taken]
    case Message(_, _) => a.(phase := Receiving, taken := a.taken + 1)
    case Terminated(t) =>
      if t in a.watched
      then a.(phase := Receiving, taken := a.taken + 1, watched := a.watched - {t})
      else a.(taken := a.taken + 1)
  }

  /** The step hands `Terminated(t)` to `w`'s code. */
  predicate Delivers(s: System, act: Action, w: nat, t: nat) {
    && act == Own(w, Take)
    && w in s.actors
    && s.actors[w].taken < |s.actors[w].log|
    && s.actors[w].log[s.actors[w].taken] == Terminated(t)
    && t in s.actors[w].watched
  }

  ghost predicate Start(s: System) {
    s.actors == map[s.root := Newborn(None, 0, 0)] && s.sink.Unregistered?
  }

  ghost predicate IsRun(run: seq<System>, acts: seq<Action>) {
    && |run| == |acts| + 1
    && Start(run[0])
    && forall k | 0 <= k < |acts| :: Enabled(run[k], acts[k]) && run[k + 1] == Next(run[k], acts[k])
  }

  // ----- what no step undoes

  /** How one actor looks after some steps: identity fixed, the log appended to, closed stays closed. */
  ghost predicate Later(a: Actor, a': Actor) {
    && a'.parent == a.parent && a'.parentGen == a.parentGen && a'.depth == a.depth
    && a.gen <= a'.gen
    && a.log <= a'.log && a.taken <= a'.taken
    && (a.phase.Dead? ==> a'.phase.Dead?)
    && (Closed(a.phase) ==> Closed(a'.phase))
    && (!Connected(a.phase) ==> !Connected(a'.phase))
  }

  ghost predicate Persists(s: System, s': System) {
    && s'.root == s.root
    && s.actors.Keys <= s'.actors.Keys
    && forall w | w in s.actors :: Later(s.actors[w], s'.actors[w])
  }

  ghost predicate TakenInv(s: System) {
    forall w | w in s.actors :: s.actors[w].taken <= |s.actors[w].log|
  }

  lemma PutPersists(s: System, w: nat, a: Actor)
    requires TakenInv(s) && a.taken <= |a.log| && (w in s.actors ==> Later(s.actors[w], a))
    ensures Persists(s, Put(s, w, a)) && TakenInv(Put(s, w, a))
  {
  }

  lemma PersistsTransitive(s: System, t: System, u: System)
    requires Persists(s, t) && Persists(t, u)
    ensures Persists(s, u)
  {
    forall w | w in s.actors ensures w in u.actors && Later(s.actors[w], u.actors[w]) {
      assert Later(s.actors[w], t.actors[w]) && Later(t.actors[w], u.actors[w]);
    }
  }

  lemma OwnPersists(s: System, w: nat, own: OwnAction)
    requires CanOwn(s, w, own) && TakenInv(s)
    ensures Later(s.actors[w], AfterOwn(s.actors[w], own))
    ensures AfterOwn(s.actors[w], own).taken <= |AfterOwn(s.actors[w], own).log|
  {
  }

  /** A registry edit of `t` followed by an edit of `w`'s own record. */
  lemma EditPersists(s: System, t: nat, r: Registry, w: nat, a: Actor)
    requires TakenInv(s) && t in s.actors && w in s.actors
    requires Later(SetRegistry(s, t, r).actors[w], a) && a.taken <= |a.log|
    ensures Persists(s, Put(SetRegistry(s, t, r), w, a)) && TakenInv(Put(SetRegistry(s, t, r), w, a))
  {
    var s1 := SetRegistry(s, t, r);
    PutPersists(s, t, s1.actors[t]);
    PutPersists(s1, w, a);
    PersistsTransitive(s, s1, Put(s1, w, a));
  }

  lemma SignalPersists(s: System, w: nat, watcher: Watcher)
    requires TakenInv(s) && w in s.actors && s.actors[w].phase.Signaling?
    ensures Persists(s, AfterSignal(s, w, watcher)) && TakenInv(AfterSignal(s, w, watcher))
  {
    var s1 := Put(s, w, s.actors[w].(phase := Signaling(s.actors[w].phase.untold - {watcher})));
    PutPersists(s, w, s1.actors[w]);
    if watcher.ActorWatcher? && watcher.id in s1.actors {
      PutPersists(s1, watcher.id, Posted(s1.actors[watcher.id], Terminated(w)));
      PersistsTransitive(s, s1, AfterSignal(s, w, watcher));
    }
  }

  lemma StepPersists(s: System, act: Action)
    requires Enabled(s, act) && TakenInv(s)
    ensures Persists(s, Next(s, act)) && TakenInv(Next(s, act))
  {
    match act
    case Own(w, own) =>
      OwnPersists(s, w, own);
      PutPersists(s, w, AfterOwn(s.actors[w], own));
    case Spawn(w, child) => PutPersists(s, child, Next(s, act).actors[child]);
    case Send(w, to, body) => PutPersists(s, to, Next(s, act).actors[to]);
    case SendFromOutside(to, body) => PutPersists(s, to, Next(s, act).actors[to]);
    case WatchAdd(w, t) =>
      EditPersists(s, t, Added(s.actors[t].registry, ActorWatcher(w)), w, Next(s, act).actors[w]);
    case UnwatchDeregister(w) =>
      var t := s.actors[w].call.t;
      EditPersists(s, t, Removed(s.actors[t].registry, ActorWatcher(w)), w, Next(s, act).actors[w]);
    case Deregister(w, t) =>
      EditPersists(s, t, Removed(s.actors[t].registry, ActorWatcher(w)), w, Next(s, act).actors[w]);
    case Signal(w, watcher) => SignalPersists(s, w, watcher);
    case WatchRoot =>
      if s.actors[s.root].registry.Some? {
        PutPersists(s, s.root, Next(s, act).actors[s.root]);
      }
  }
}
