/** Death watch over every run of an actor system: ordering, no lost watcher, at most one delivery. */
module DeathWatch {
  import opened Prelude
  import opened Mailboxes
  import opened ActorTree

  // ----- signals tell the truth, and behind a signal its sender is silent

  ghost predicate IsClosed(s: System, t: nat) {
    t in s.actors && Closed(s.actors[t].phase)
  }

  ghost predicate ItemTrue(s: System, item: Item) {
    item.Terminated? ==> IsClosed(s, item.other)
  }

  ghost predicate CallTrue(s: System, call: Call) {
    call.SelfSignal? || (call.WatchAdded? && !call.ok) ==> IsClosed(s, call.t)
  }

  /** No message of an actor stands behind a signal of its termination. */
  ghost predicate Ordered(log: seq<Item>) {
    forall i, j | 0 <= i < j < |log| :: !(log[i].Terminated? && log[j].Message? && log[j].from == Some(log[i].other))
  }

  ghost predicate LocalInv(a: Actor) {
    && (a.registry.None? <==> Closed(a.phase))
    && (!InUserCode(a.phase) ==> a.call.NoCall?)
    && (a.call.Unwatched? ==> a.call.t !in a.watched)
    && (!Connected(a.phase) ==> a.watched == {})
    && (!Closed(a.phase) ==> a.told == {})
    && (a.phase.Signaling? ==> a.phase.untold <= a.told)
    && a.taken <= |a.log|
  }

  ghost predicate ActorTrue(s: System, a: Actor) {
    && LocalInv(a)
    && Ordered(a.log)
    && CallTrue(s, a.call)
    && forall i | 0 <= i < |a.log| :: ItemTrue(s, a.log[i])
  }

  ghost predicate TrueInv(s: System) {
    forall w | w in s.actors :: ActorTrue(s, s.actors[w])
  }

  lemma TrueWhilePersists(s: System, s': System, a: Actor)
    requires Persists(s, s') && ActorTrue(s, a)
    ensures ActorTrue(s', a)
  {
    forall t | IsClosed(s, t) ensures IsClosed(s', t) {
      assert Later(s.actors[t], s'.actors[t]);
    }
  }

  lemma OwnTrue(s: System, w: nat, own: OwnAction)
    requires TrueInv(s) && CanOwn(s, w, own)
    ensures ActorTrue(s, AfterOwn(s.actors[w], own))
  {
    assert ActorTrue(s, s.actors[w]);
    if own.Take? {
      assert ItemTrue(s, s.actors[w].log[s.actors[w].taken]);
    }
  }

  /** A message keeps the order unless its sender is closed; a signal always does. */
  lemma PostedTrue(s: System, v: nat, item: Item)
    requires TrueInv(s) && v in s.actors && ItemTrue(s, item)
    requires item.Message? && item.from.Some? ==> !IsClosed(s, item.from.value)
    ensures ActorTrue(s, Posted(s.actors[v], item))
  {
    assert ActorTrue(s, s.actors[v]);
    var log := s.actors[v].log;
    forall i | 0 <= i < |log| ensures ItemTrue(s, log[i]) { }
  }

  lemma PutTrue(s: System, w: nat, a: Actor)
    requires TrueInv(s) && ActorTrue(s, a) && Persists(s, Put(s, w, a))
    ensures TrueInv(Put(s, w, a))
  {
    var s' := Put(s, w, a);
    forall x | x in s'.actors ensures ActorTrue(s', s'.actors[x]) {
      TrueWhilePersists(s, s', if x == w then a else s.actors[x]);
    }
  }

  lemma TakenOfTrue(s: System)
    requires TrueInv(s)
    ensures TakenInv(s)
  {
    forall w | w in s.actors ensures s.actors[w].taken <= |s.actors[w].log| {
      assert ActorTrue(s, s.actors[w]);
    }
  }

  lemma EditTrue(s: System, t: nat, r: Registry, w: nat, a: Actor)
    requires TrueInv(s) && t in s.actors && w in s.actors && (r.None? <==> s.actors[t].registry.None?)
    requires var s1 := SetRegistry(s, t, r);
      Later(s1.actors[w], a) && (ActorTrue(s, s1.actors[w]) ==> ActorTrue(s, a))
    ensures TrueInv(Put(SetRegistry(s, t, r), w, a))
  {
    TakenOfTrue(s);
    var s1 := SetRegistry(s, t, r);
    assert ActorTrue(s, s.actors[t]) && ActorTrue(s, s.actors[w]);
    PutPersists(s, t, s1.actors[t]);
    PutTrue(s, t, s1.actors[t]);
    TrueWhilePersists(s, s1, a);
    PutPersists(s1, w, a);
    PutTrue(s1, w, a);
  }

  lemma SignalTrue(s: System, w: nat, watcher: Watcher)
    requires TrueInv(s) && Enabled(s, Signal(w, watcher))
    ensures TrueInv(AfterSignal(s, w, watcher))
  {
    TakenOfTrue(s);
    var s1 := Put(s, w, s.actors[w].(phase := Signaling(s.actors[w].phase.untold - {watcher})));
    assert ActorTrue(s, s.actors[w]);
    PutPersists(s, w, s1.actors[w]);
    PutTrue(s, w, s1.actors[w]);
    TakenOfTrue(s1);
    if watcher.ActorWatcher? && watcher.id in s1.actors {
      PostedTrue(s1, watcher.id, Terminated(w));
      PutPersists(s1, watcher.id, Posted(s1.actors[watcher.id], Terminated(w)));
      PutTrue(s1, watcher.id, Posted(s1.actors[watcher.id], Terminated(w)));
    } else {
      var s2 := AfterSignal(s, w, watcher);
      forall x | x in s2.actors ensures ActorTrue(s2, s2.actors[x]) {
        TrueWhilePersists(s1, s2, s1.actors[x]);
      }
    }
  }

  predicate EditsRegistry(act: Action) {
    act.WatchAdd? || act.UnwatchDeregister? || act.Deregister?
  }

  lemma EditStepTrue(s: System, act: Action)
    requires TrueInv(s) && Enabled(s, act) && EditsRegistry(act)
    ensures TrueInv(Next(s, act))
  {
    match act
    case WatchAdd(w, t) =>
      assert ActorTrue(s, s.actors[t]);
      EditTrue(s, t, Added(s.actors[t].registry, ActorWatcher(w)), w, Next(s, act).actors[w]);
    case UnwatchDeregister(w) =>
      var t := s.actors[w].call.t;
      EditTrue(s, t, Removed(s.actors[t].registry, ActorWatcher(w)), w, Next(s, act).actors[w]);
    case Deregister(w, t) =>
      EditTrue(s, t, Removed(s.actors[t].registry, ActorWatcher(w)), w, Next(s, act).actors[w]);
  }

  lemma WatchRootTrue(s: System)
    requires TrueInv(s) && Enabled(s, WatchRoot)
    ensures TrueInv(AfterWatchRoot(s))
  {
    TakenOfTrue(s);
    StepPersists(s, WatchRoot);
    assert ActorTrue(s, s.actors[s.root]);
    var s' := AfterWatchRoot(s);
    forall x | x in s'.actors ensures ActorTrue(s', s'.actors[x]) {
      TrueWhilePersists(s, s', if x == s.root then s'.actors[x] else s.actors[x]);
    }
  }

  lemma StepTrue(s: System, act: Action)
    requires TrueInv(s) && Enabled(s, act)
    ensures TrueInv(Next(s, act))
  {
    TakenOfTrue(s);
    StepPersists(s, act);
    match act
    case Own(w, own) =>
      OwnTrue(s, w, own);
      PutTrue(s, w, AfterOwn(s.actors[w], own));
    case Spawn(w, child) => PutTrue(s, child, Next(s, act).actors[child]);
    case Send(w, to, body) =>
      PostedTrue(s, to, Message(Some(w), body));
      PutTrue(s, to, Posted(s.actors[to], Message(Some(w), body)));
    case SendFromOutside(to, body) =>
      PostedTrue(s, to, Message(None, body));
      PutTrue(s, to, Posted(s.actors[to], Message(None, body)));
    case Signal(w, watcher) => SignalTrue(s, w, watcher);
    case WatchRoot => WatchRootTrue(s);
    case _ => EditStepTrue(s, act);
  }

  // ----- no watcher is lost, and no dead one is kept

  predicate InRegistry(b: Actor, w: nat) {
    b.registry.Some? && ActorWatcher(w) in b.registry.value
  }

  /** `w` will be told by `b`'s termination. */
  predicate Listed(b: Actor, w: nat) {
    InRegistry(b, w) || (b.phase.Signaling? && ActorWatcher(w) in b.phase.untold)
  }

  /** The signal of `t` is in the mailbox, not yet dequeued. */
  ghost predicate Pending(a: Actor, t: nat) {
    exists i :: a.taken <= i < |a.log| && a.log[i] == Terminated(t)
  }

  /** What holds between a possible watcher `w` and a possible target `t`, given their records. */
  ghost predicate PairOk(a: Actor, w: nat, b: Actor, t: nat) {
    && (Running(a.phase) && t in a.watched ==> Listed(b, w) || Pending(a, t) || a.call == SelfSignal(t))
    && (a.call == WatchAdded(t, true) ==> Listed(b, w) || Pending(a, t))
    && (InRegistry(b, w) ==>
          || t in a.watched
          || a.call == WatchAdded(t, true)
          || a.call == Unwatched(t)
          || (a.phase.Deregistering? && t in a.phase.rest))
  }

  /** An actor only ever names actors that exist. */
  ghost predicate Names(s: System, a: Actor) {
    && a.watched <= s.actors.Keys
    && (!a.call.NoCall? ==> a.call.t in s.actors)
    && (a.phase.Deregistering? ==> a.phase.rest <= s.actors.Keys)
    && (forall x | ActorWatcher(x) in a.told :: x in s.actors)
    && (a.registry.Some? ==> forall x | ActorWatcher(x) in a.registry.value :: x in s.actors)
  }

  ghost predicate PairInv(s: System) {
    && (forall w | w in s.actors :: Names(s, s.actors[w]))
    && (forall w, t | w in s.actors && t in s.actors :: PairOk(s.actors[w], w, s.actors[t], t))
  }

  lemma PendingAfterOwn(a: Actor, own: OwnAction, t: nat)
    requires LocalInv(a) && Pending(a, t) && !own.Terminate?
    requires own.WatchSelfSignal? ==> a.call.SelfSignal?
    requires own.WatchInsert? ==> a.call.WatchAdded?
    requires own.TakeWatchers? ==> a.registry.Some?
    ensures (own.Take? && a.log[a.taken] == Terminated(t)) || Pending(AfterOwn(a, own), t)
  {
    var i :| a.taken <= i < |a.log| && a.log[i] == Terminated(t);
    var a' := AfterOwn(a, own);
    assert a.log <= a'.log && a'.log[i] == Terminated(t);
  }

  /** A step of the watcher's own task. */
  lemma OwnPairWatcher(s: System, w: nat, own: OwnAction, b: Actor, t: nat)
    requires CanOwn(s, w, own) && LocalInv(s.actors[w]) && PairOk(s.actors[w], w, b, t)
    requires own.Take? && s.actors[w].log[s.actors[w].taken] == Terminated(t) ==> b.registry.None?
    ensures PairOk(AfterOwn(s.actors[w], own), w, b, t)
  {
    var a := s.actors[w];
    if Pending(a, t) && !own.Terminate? {
      PendingAfterOwn(a, own, t);
    }
    if own.WatchSelfSignal? {
      assert AfterOwn(a, own).log[|a.log|] == Terminated(a.call.t);
    }
  }

  /** A step of the target's own task. */
  lemma OwnPairTarget(s: System, t: nat, own: OwnAction, a: Actor, w: nat)
    requires CanOwn(s, t, own) && LocalInv(s.actors[t]) && PairOk(a, w, s.actors[t], t)
    ensures PairOk(a, w, AfterOwn(s.actors[t], own), t)
  {
  }

  lemma OwnPair(s: System, w: nat, own: OwnAction, x: nat, t: nat)
    requires TrueInv(s) && CanOwn(s, w, own) && x in s.actors && t in s.actors
    requires PairOk(s.actors[x], x, s.actors[t], t)
    ensures var s' := Put(s, w, AfterOwn(s.actors[w], own)); PairOk(s'.actors[x], x, s'.actors[t], t)
  {
    var a := s.actors[w];
    assert ActorTrue(s, a) && ActorTrue(s, s.actors[t]);
    var b := s.actors[t];
    if t == w {
      OwnPairTarget(s, w, own, s.actors[x], x);
      b := AfterOwn(a, own);
    }
    if x == w {
      if own.Take? {
        assert ItemTrue(s, a.log[a.taken]);
      }
      OwnPairWatcher(s, w, own, b, t);
    }
  }

  lemma OwnPairs(s: System, w: nat, own: OwnAction)
    requires TrueInv(s) && PairInv(s) && CanOwn(s, w, own)
    ensures PairInv(Put(s, w, AfterOwn(s.actors[w], own)))
  {
    var s' := Put(s, w, AfterOwn(s.actors[w], own));
    OwnNames(s, w, own);
    forall x, t | x in s'.actors && t in s'.actors ensures PairOk(s'.actors[x], x, s'.actors[t], t) {
      OwnPair(s, w, own, x, t);
    }
  }

  lemma OwnNames(s: System, w: nat, own: OwnAction)
    requires CanOwn(s, w, own) && Names(s, s.actors[w])
    ensures Names(s, AfterOwn(s.actors[w], own))
  {
  }

  // ----- steps across actors

  lemma PendingAfterPost(a: Actor, item: Item, t: nat)
    ensures Pending(a, t) ==> Pending(Posted(a, item), t)
    ensures Connected(a.phase) && item == Terminated(t) && a.taken <= |a.log| ==> Pending(Posted(a, item), t)
  {
    var a' := Posted(a, item);
    if Pending(a, t) {
      var i :| a.taken <= i < |a.log| && a.log[i] == Terminated(t);
      assert a'.log[i] == Terminated(t);
    }
    assert Connected(a.phase) ==> a'.log[|a.log|] == item;
  }

  lemma PostedPairs(s: System, v: nat, item: Item)
    requires PairInv(s) && v in s.actors
    ensures PairInv(Enqueue(s, v, item))
  {
    var s' := Enqueue(s, v, item);
    forall x | x in s'.actors ensures Names(s', s'.actors[x]) {
      assert Names(s, s.actors[x]);
    }
    forall x, t | x in s'.actors && t in s'.actors ensures PairOk(s'.actors[x], x, s'.actors[t], t) {
      assert PairOk(s.actors[x], x, s.actors[t], t);
      PendingAfterPost(s.actors[x], item, t);
    }
  }

  lemma SpawnPairs(s: System, w: nat, child: nat)
    requires PairInv(s) && Enabled(s, Spawn(w, child))
    ensures PairInv(Next(s, Spawn(w, child)))
  {
    var s' := Next(s, Spawn(w, child));
    forall x | x in s.actors ensures Names(s', s.actors[x]) && child !in s.actors[x].watched {
      assert Names(s, s.actors[x]);
    }
    forall x, t | x in s'.actors && t in s'.actors ensures PairOk(s'.actors[x], x, s'.actors[t], t) {
      if x in s.actors && t in s.actors {
        assert PairOk(s.actors[x], x, s.actors[t], t);
      }
    }
  }

  lemma SamePending(a: Actor, a': Actor, t: nat)
    requires a'.log == a.log && a'.taken == a.taken
    ensures Pending(a', t) <==> Pending(a, t)
  {
  }

  lemma WatchAddPair(s: System, w: nat, u: nat, x: nat, t: nat)
    requires Enabled(s, WatchAdd(w, u)) && x in s.actors && t in s.actors
    requires PairOk(s.actors[x], x, s.actors[t], t)
    ensures var s' := AfterWatchAdd(s, w, u); PairOk(s'.actors[x], x, s'.actors[t], t)
  {
    SamePending(s.actors[x], AfterWatchAdd(s, w, u).actors[x], t);
  }

  lemma UnwatchPair(s: System, w: nat, x: nat, t: nat)
    requires Enabled(s, UnwatchDeregister(w)) && x in s.actors && t in s.actors
    requires PairOk(s.actors[x], x, s.actors[t], t)
    requires LocalInv(s.actors[w])
    ensures var s' := AfterUnwatch(s, w); PairOk(s'.actors[x], x, s'.actors[t], t)
  {
    SamePending(s.actors[x], AfterUnwatch(s, w).actors[x], t);
  }

  lemma DeregisterPair(s: System, w: nat, u: nat, x: nat, t: nat)
    requires Enabled(s, Deregister(w, u)) && x in s.actors && t in s.actors
    requires PairOk(s.actors[x], x, s.actors[t], t) && LocalInv(s.actors[w])
    ensures var s' := AfterDeregister(s, w, u); PairOk(s'.actors[x], x, s'.actors[t], t)
  {
    SamePending(s.actors[x], AfterDeregister(s, w, u).actors[x], t);
  }

  lemma EditPair(s: System, act: Action, x: nat, t: nat)
    requires PairInv(s) && Enabled(s, act) && EditsRegistry(act) && LocalInv(s.actors[act.w])
    requires x in s.actors && t in s.actors
    ensures PairOk(Next(s, act).actors[x], x, Next(s, act).actors[t], t)
  {
    match act
    case WatchAdd(w, u) => WatchAddPair(s, w, u, x, t);
    case UnwatchDeregister(w) => UnwatchPair(s, w, x, t);
    case Deregister(w, u) => DeregisterPair(s, w, u, x, t);
  }

  lemma EditNames(s: System, act: Action, x: nat)
    requires PairInv(s) && Enabled(s, act) && EditsRegistry(act) && x in s.actors
    ensures Names(Next(s, act), Next(s, act).actors[x])
  {
    assert Names(s, s.actors[x]);
  }

  lemma EditPairs(s: System, act: Action)
    requires TrueInv(s) && PairInv(s) && Enabled(s, act) && EditsRegistry(act)
    ensures PairInv(Next(s, act))
  {
    var s' := Next(s, act);
    assert s'.actors.Keys == s.actors.Keys;
    assert ActorTrue(s, s.actors[act.w]);
    forall x | x in s.actors ensures Names(s', s'.actors[x]) {
      EditNames(s, act, x);
    }
    forall x, t | x in s.actors && t in s.actors ensures PairOk(s'.actors[x], x, s'.actors[t], t) {
      EditPair(s, act, x, t);
    }
  }

  /** Telling a watcher moves it from the list to the mailbox, if it still has one. */
  lemma SignalPair(s: System, w: nat, watcher: Watcher, x: nat, t: nat)
    requires Enabled(s, Signal(w, watcher)) && x in s.actors && t in s.actors
    requires PairOk(s.actors[x], x, s.actors[t], t) && LocalInv(s.actors[x])
    ensures var s' := AfterSignal(s, w, watcher); PairOk(s'.actors[x], x, s'.actors[t], t)
  {
    var a := s.actors[x];
    var a' := AfterSignal(s, w, watcher).actors[x];
    assert a'.watched == a.watched && a'.call == a.call && Running(a'.phase) == Running(a.phase);
    if watcher == ActorWatcher(x) && x != w {
      PendingAfterPost(a, Terminated(w), t);
    } else {
      SamePending(a, a', t);
    }
  }

  lemma SignalNames(s: System, w: nat, watcher: Watcher, x: nat)
    requires Enabled(s, Signal(w, watcher)) && x in s.actors && Names(s, s.actors[x])
    ensures Names(AfterSignal(s, w, watcher), AfterSignal(s, w, watcher).actors[x])
  {
  }

  lemma SignalPairs(s: System, w: nat, watcher: Watcher)
    requires TrueInv(s) && PairInv(s) && Enabled(s, Signal(w, watcher))
    ensures PairInv(AfterSignal(s, w, watcher))
  {
    var s' := AfterSignal(s, w, watcher);
    assert s'.actors.Keys == s.actors.Keys;
    forall x | x in s.actors ensures Names(s', s'.actors[x]) {
      SignalNames(s, w, watcher, x);
    }
    forall x, t | x in s.actors && t in s.actors ensures PairOk(s'.actors[x], x, s'.actors[t], t) {
      assert ActorTrue(s, s.actors[x]);
      SignalPair(s, w, watcher, x, t);
    }
  }

  lemma WatchRootPair(s: System, x: nat, t: nat)
    requires s.root in s.actors && x in s.actors && t in s.actors && PairOk(s.actors[x], x, s.actors[t], t)
    ensures var s' := AfterWatchRoot(s); PairOk(s'.actors[x], x, s'.actors[t], t)
  {
    SamePending(s.actors[x], AfterWatchRoot(s).actors[x], t);
  }

  lemma WatchRootPairs(s: System)
    requires PairInv(s) && s.root in s.actors
    ensures PairInv(AfterWatchRoot(s))
  {
    var s' := AfterWatchRoot(s);
    assert s'.actors.Keys == s.actors.Keys;
    forall x | x in s.actors ensures Names(s', s'.actors[x]) {
      assert Names(s, s.actors[x]);
    }
    forall x, t | x in s.actors && t in s.actors ensures PairOk(s'.actors[x], x, s'.actors[t], t) {
      WatchRootPair(s, x, t);
    }
  }

  lemma StepPairs(s: System, act: Action)
    requires TrueInv(s) && PairInv(s) && Enabled(s, act)
    ensures PairInv(Next(s, act))
  {
    match act
    case Own(w, own) => OwnPairs(s, w, own);
    case Spawn(w, child) => SpawnPairs(s, w, child);
    case Send(w, to, body) => PostedPairs(s, to, Message(Some(w), body));
    case SendFromOutside(to, body) => PostedPairs(s, to, Message(None, body));
    case Signal(w, watcher) => SignalPairs(s, w, watcher);
    case WatchRoot => WatchRootPairs(s);
    case _ => EditPairs(s, act);
  }

  // ----- whoever was taken is told

  /** The termination of `b` took `w` as a watcher. */
  predicate ActorWatches(b: Actor, w: nat) {
    ActorWatcher(w) in b.told
  }

  /** Every watcher the termination of `t` took is still to be told, was told, or has no mailbox anymore. */
  ghost predicate ToldOk(s: System, t: nat, w: nat)
    requires t in s.actors && w in s.actors
  {
    ActorWatcher(w) in s.actors[t].told ==>
      || (s.actors[t].phase.Signaling? && ActorWatcher(w) in s.actors[t].phase.untold)
      || Terminated(t) in s.actors[w].log
      || !Connected(s.actors[w].phase)
  }

  ghost predicate ToldInv(s: System) {
    forall t, w | t in s.actors && w in s.actors :: ToldOk(s, t, w)
  }

  /** The part of a target's record the claim depends on is unchanged. */
  lemma ToldKept(s: System, s': System, t: nat, w: nat)
    requires Persists(s, s') && t in s.actors && w in s.actors && ToldOk(s, t, w)
    requires s'.actors[t].told == s.actors[t].told
    requires s.actors[t].phase.Signaling? && ActorWatcher(w) in s.actors[t].phase.untold ==>
               s'.actors[t].phase.Signaling? && ActorWatcher(w) in s'.actors[t].phase.untold
    ensures ToldOk(s', t, w)
  {
    assert Later(s.actors[w], s'.actors[w]);
    if i :| 0 <= i < |s.actors[w].log| && s.actors[w].log[i] == Terminated(t) {
      assert s'.actors[w].log[i] == Terminated(t);
    }
  }

  lemma SignalTold(s: System, t: nat, w: nat)
    requires Enabled(s, Signal(t, ActorWatcher(w))) && w in s.actors
    ensures ToldOk(AfterSignal(s, t, ActorWatcher(w)), t, w)
  {
    var s' := AfterSignal(s, t, ActorWatcher(w));
    assert Connected(s'.actors[w].phase) ==> s'.actors[w].log[|s.actors[w].log|] == Terminated(t);
  }

  /** Only taking the watchers and telling them touches the claim. */
  lemma ToldUntouched(s: System, act: Action, t: nat, w: nat)
    requires Enabled(s, act) && t in s.actors && LocalInv(s.actors[t])
    requires act != Own(t, TakeWatchers) && act != Signal(t, ActorWatcher(w))
    ensures t in Next(s, act).actors && Next(s, act).actors[t].told == s.actors[t].told
    ensures s.actors[t].phase.Signaling? && ActorWatcher(w) in s.actors[t].phase.untold ==>
              var p := Next(s, act).actors[t].phase; p.Signaling? && ActorWatcher(w) in p.untold
  {
  }

  lemma StepToldPair(s: System, act: Action, t: nat, w: nat)
    requires Enabled(s, act) && Persists(s, Next(s, act)) && t in s.actors && w in s.actors
    requires ToldOk(s, t, w) && LocalInv(s.actors[t])
    ensures ToldOk(Next(s, act), t, w)
  {
    if act == Own(t, TakeWatchers) {
    } else if act == Signal(t, ActorWatcher(w)) {
      SignalTold(s, t, w);
    } else {
      ToldUntouched(s, act, t, w);
      ToldKept(s, Next(s, act), t, w);
    }
  }

  lemma StepTold(s: System, act: Action)
    requires TrueInv(s) && PairInv(s) && ToldInv(s) && Enabled(s, act)
    ensures ToldInv(Next(s, act))
  {
    TakenOfTrue(s);
    StepPersists(s, act);
    var s' := Next(s, act);
    forall t, w | t in s'.actors && w in s'.actors ensures ToldOk(s', t, w) {
      if t in s.actors && w in s.actors {
        assert ToldOk(s, t, w) && ActorTrue(s, s.actors[t]);
        StepToldPair(s, act, t, w);
      } else if t in s.actors {
        NewcomerToldNothing(s, act, t, w);
      }
    }
  }

  lemma NewcomerToldNothing(s: System, act: Action, t: nat, w: nat)
    requires PairInv(s) && Enabled(s, act) && t in s.actors && w !in s.actors && w in Next(s, act).actors
    ensures ActorWatcher(w) !in Next(s, act).actors[t].told
  {
    assert Names(s, s.actors[t]);
  }

  // ----- whole runs

  ghost predicate WatchInv(s: System) {
    TrueInv(s) && PairInv(s) && ToldInv(s)
  }

  lemma {:induction false} RunWatchInv(run: seq<System>, acts: seq<Action>, k: nat)
    requires IsRun(run, acts) && k < |run|
    ensures WatchInv(run[k])
  {
    if k == 0 {
      assert PairOk(Newborn(None, 0, 0), run[0].root, Newborn(None, 0, 0), run[0].root);
    } else {
      RunWatchInv(run, acts, k - 1);
      StepTrue(run[k - 1], acts[k - 1]);
      StepPairs(run[k - 1], acts[k - 1]);
      StepTold(run[k - 1], acts[k - 1]);
    }
  }

  lemma {:induction false} RunPersists(run: seq<System>, acts: seq<Action>, k: nat, l: nat)
    requires IsRun(run, acts) && k <= l < |run|
    ensures Persists(run[k], run[l])
    decreases l
  {
    if k < l {
      RunPersists(run, acts, k, l - 1);
      RunWatchInv(run, acts, l - 1);
      TakenOfTrue(run[l - 1]);
      StepPersists(run[l - 1], acts[l - 1]);
      PersistsTransitive(run[k], run[l - 1], run[l]);
    }
  }

  /**
   * When `Terminated(t)` is handed to `w`, every message `t` ever put in `w`'s mailbox, then or in
   * any later state of the run, has already been dequeued; and `t` will not send another.
   */
  lemma SignalIsBehindAllMessages(run: seq<System>, acts: seq<Action>, k: nat, l: nat, w: nat, t: nat, i: nat)
    requires IsRun(run, acts) && k < |acts| && k <= l < |run|
    requires Delivers(run[k], acts[k], w, t)
    requires w in run[l].actors && i < |run[l].actors[w].log|
    requires run[l].actors[w].log[i].Message? && run[l].actors[w].log[i].from == Some(t)
    ensures i < run[k].actors[w].taken
  {
    RunPersists(run, acts, k, l);
    RunWatchInv(run, acts, l);
    var at := run[k].actors[w].taken;
    assert Later(run[k].actors[w], run[l].actors[w]);
    assert run[l].actors[w].log[at] == Terminated(t);
    assert ActorTrue(run[l], run[l].actors[w]);
  }

  /** A signal is handed on only after its sender has closed registration, behind everything it did. */
  lemma DeliveredIsClosed(run: seq<System>, acts: seq<Action>, k: nat, w: nat, t: nat)
    requires IsRun(run, acts) && k < |acts| && Delivers(run[k], acts[k], w, t)
    ensures IsClosed(run[k], t)
  {
    RunWatchInv(run, acts, k);
    assert ActorTrue(run[k], run[k].actors[w]);
    assert ItemTrue(run[k], run[k].actors[w].log[run[k].actors[w].taken]);
  }

  /** No watcher is ever lost, whatever races with the termination of the watched actor. */
  lemma NoWatcherLost(run: seq<System>, acts: seq<Action>, k: nat, w: nat, t: nat)
    requires IsRun(run, acts) && k < |run| && w in run[k].actors
    requires Running(run[k].actors[w].phase) && t in run[k].actors[w].watched
    requires run[k].actors[w].call != SelfSignal(t)
    ensures t in run[k].actors
    ensures Listed(run[k].actors[t], w) || Pending(run[k].actors[w], t)
  {
    RunWatchInv(run, acts, k);
    assert Names(run[k], run[k].actors[w]);
    assert PairOk(run[k].actors[w], w, run[k].actors[t], t);
  }

  /** A watcher that has deregistered stays in no open registry, so dead watchers never accumulate. */
  lemma DeadWatchersAreGone(run: seq<System>, acts: seq<Action>, k: nat, w: nat, t: nat)
    requires IsRun(run, acts) && k < |run| && w in run[k].actors && t in run[k].actors
    requires !Connected(run[k].actors[w].phase)
    ensures InRegistry(run[k].actors[t], w) ==>
      run[k].actors[w].phase.Deregistering? && t in run[k].actors[w].phase.rest
  {
    RunWatchInv(run, acts, k);
    assert ActorTrue(run[k], run[k].actors[w]);
    assert PairOk(run[k].actors[w], w, run[k].actors[t], t);
  }

  /** The step completes a `watch` of `t` by `w`. */
  predicate Rewatches(s: System, act: Action, w: nat, t: nat) {
    act == Own(w, WatchInsert) && w in s.actors && s.actors[w].call.WatchAdded? && s.actors[w].call.t == t
  }

  lemma WatchedOnlyByWatch(s: System, act: Action, w: nat, t: nat)
    requires Enabled(s, act) && w in s.actors && t !in s.actors[w].watched && !Rewatches(s, act, w, t)
    ensures w in Next(s, act).actors && t !in Next(s, act).actors[w].watched
  {
  }

  /**
   * Once `t` is unwatched, by `unwatch` or because its signal was handed on, no `Terminated(t)` is
   * delivered until a `watch` of `t` completes, however many signals are enqueued.
   */
  lemma {:induction false} NoDeliveryWhileUnwatched(
      run: seq<System>, acts: seq<Action>, k: nat, l: nat, w: nat, t: nat)
    requires IsRun(run, acts) && k <= l < |acts| && w in run[k].actors && t !in run[k].actors[w].watched
    requires forall m | k <= m < l :: !Rewatches(run[m], acts[m], w, t)
    ensures w in run[l].actors && t !in run[l].actors[w].watched
    ensures !Delivers(run[l], acts[l], w, t)
    decreases l
  {
    if k < l {
      NoDeliveryWhileUnwatched(run, acts, k, l - 1, w, t);
      WatchedOnlyByWatch(run[l - 1], acts[l - 1], w, t);
    }
  }

  /** A delivery ends the watch, so a second one needs a new `watch` in between. */
  lemma SingleDelivery(run: seq<System>, acts: seq<Action>, k: nat, l: nat, w: nat, t: nat)
    requires IsRun(run, acts) && k < l < |acts|
    requires Delivers(run[k], acts[k], w, t) && Delivers(run[l], acts[l], w, t)
    ensures exists m :: k < m < l && Rewatches(run[m], acts[m], w, t)
  {
    if !exists m :: k < m < l && Rewatches(run[m], acts[m], w, t) {
      NoDeliveryWhileUnwatched(run, acts, k + 1, l, w, t);
    }
  }
}
