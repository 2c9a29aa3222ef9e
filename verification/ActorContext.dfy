/** The actor's context as the object its task owns: what it watches and its mailbox's queue. */
module ActorContexts {
  import opened Prelude
  import opened Mailboxes
  import opened ActorTree

  /** The run loop skips the signal of an actor that is not watched. */
  predicate Stale(item: Item, watched: set<nat>) {
    item.Terminated? && item.other !in watched
  }

  class ActorContext {
    const id: nat
    var watched: map<nat, WatcherRegistry>
    var queue: seq<Item>

    constructor (id: nat)
      ensures this.id == id && watched == map[] && queue == []
    {
      this.id, watched, queue := id, map[], [];
    }

    /** Afterwards this actor is registered, or the signal it would have missed is enqueued behind all messages. */
    method Watch(other: nat, registry: WatcherRegistry)
      modifies this, registry
      ensures watched == old(watched)[other := registry]
      ensures registry.watchers == Added(old(registry.watchers), ActorWatcher(id))
      ensures queue == if old(registry.watchers).None? then old(queue) + [Terminated(other)] else old(queue)
      ensures (registry.watchers.Some? && ActorWatcher(id) in registry.watchers.value) || Terminated(other) in queue
    {
      var registered := registry.Add(ActorWatcher(id));
      watched := watched[other := registry];
      if !registered {
        queue := queue + [Terminated(other)];
        assert queue[|queue| - 1] == Terminated(other);
      }
    }

    method Unwatch(other: nat)
      modifies this, if other in watched then {watched[other]} else {}
      ensures watched == old(watched) - {other}
      ensures old(other in watched) ==>
        old(watched[other]).watchers == Removed(old(watched[other].watchers), ActorWatcher(id))
      ensures queue == old(queue)
    {
      if other in watched {
        var registry := watched[other];
        watched := watched - {other};
        registry.Remove(ActorWatcher(id));
      }
    }

    method TakeWatchedFor(other: nat) returns (was: bool)
      modifies this
      ensures was == (other in old(watched)) && watched == old(watched) - {other} && queue == old(queue)
    {
      was := other in watched;
      watched := watched - {other};
    }

    /**
     * Skips exactly the stale signals in front of the first other incoming, hands that one on and,
     * for a signal, ends the watch; `None` if and only if the queue holds nothing but stale signals.
     */
    method NextIncoming() returns (incoming: Option<Item>)
      modifies this
      ensures incoming.None? <==> forall j | 0 <= j < |old(queue)| :: Stale(old(queue)[j], old(watched.Keys))
      ensures incoming.None? ==> queue == [] && watched == old(watched)
      ensures incoming.Some? ==>
        && |queue| < |old(queue)|
        && var n := |old(queue)| - |queue| - 1;
        && (forall j | 0 <= j < n :: Stale(old(queue)[j], old(watched.Keys)))
        && !Stale(old(queue)[n], old(watched.Keys))
        && incoming.value == old(queue)[n] && queue == old(queue)[n + 1..]
        && watched == old(watched) - (if incoming.value.Terminated? then {incoming.value.other} else {})
    {
      ghost var skipped := 0;
      while queue != []
        invariant skipped <= |old(queue)| && queue == old(queue)[skipped..] && watched == old(watched)
        invariant forall j | 0 <= j < skipped :: Stale(old(queue)[j], old(watched.Keys))
        decreases |queue|
      {
        var first := queue[0];
        queue := queue[1..];
        if first.Terminated? {
          var was := TakeWatchedFor(first.other);
          if !was {
            skipped := skipped + 1;
            continue;
          }
        }
        return Some(first);
      }
      return None;
    }
  }

  /**
   * The loop is the machine's steps: taking the stale items in front leaves a waiting actor waiting
   * and its watches alone, and the first other item, if there is one, is handed to its code.
   */
  lemma {:induction false} TakingSkipsToDeliverable(a: Actor, n: nat)
    requires a.phase.Waiting? && a.taken + n <= |a.log|
    requires forall j | a.taken <= j < a.taken + n :: Stale(a.log[j], a.watched)
    ensures Takes(a, n) == a.(taken := a.taken + n)
    ensures a.taken + n < |a.log| && !Stale(a.log[a.taken + n], a.watched) ==>
      var (item, a') := (a.log[a.taken + n], Taken(Takes(a, n)));
      && a'.phase.Receiving? && a'.taken == a.taken + n + 1
      && a'.watched == a.watched - (if item.Terminated? then {item.other} else {})
    decreases n
  {
    if n > 0 {
      assert Stale(a.log[a.taken], a.watched);
      TakingSkipsToDeliverable(Taken(a), n - 1);
    }
  }

  /** `n` dequeues in a row. */
  function Takes(a: Actor, n: nat): Actor
    decreases n
  {
    if n == 0 || a.taken >= |a.log| then a else Takes(Taken(a), n - 1)
  }
}
