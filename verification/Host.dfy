/**
 * The host: a keyed registry of entities with passivation, bounded buffering and respawn. A routed
 * message is represented by its arrival number; the host never looks inside one.
 */
module Hosts {
  import opened Prelude

  type Key(==, !new)

  datatype Config = Config(idleTimeout: Option<nat>, buffer: nat)

  datatype Entry =
    | Live(actor: nat, lastMessage: nat)
    | Stopping(actor: nat, buffered: seq<nat>)

  /** What an entity's mailbox accepted from the host. */
  datatype Post = Message(actor: nat, n: nat) | Passivate(actor: nat)

  /**
   * `entries`, `keys` and `ticker` are the host's own state. The rest records what it did:
   * `arrived` maps arrival numbers to keys, `log` is what mailboxes accepted, `refused` the dead
   * letters, `spawned` the key of every entity ever spawned.
   */
  datatype State = State(
    entries: map<Key, Entry>,
    keys: map<nat, Key>,
    ticker: Option<nat>,
    arrived: seq<Key>,
    log: seq<Post>,
    refused: set<nat>,
    spawned: map<nat, Key>)

  const EMPTY := State(map[], map[], None, [], [], {}, map[])

  // ----- what the handlers do, on values

  /** `tell`: whether the mailbox accepts is the entity's business. */
  function Tell(s: State, actor: nat, n: nat, accepted: bool): State {
    if accepted then s.(log := s.log + [Message(actor, n)]) else s.(refused := s.refused + {n})
  }

  function Remember(s: State, key: Key, actor: nat, now: nat): State {
    s.(entries := s.entries[key := Live(actor, now)],
       keys := s.keys[actor := key],
       spawned := s.spawned[actor := key])
  }

  function Routed(c: Config, s: State, key: Key, now: nat, newId: nat, accepted: bool): State {
    var n := |s.arrived|;
    var s1 := s.(arrived := s.arrived + [key]);
    if key !in s.entries then Remember(Tell(s1, newId, n, accepted), key, newId, now)
    else
      match s.entries[key]
      case Live(actor, _) => Tell(s1, actor, n, accepted).(entries := s.entries[key := Live(actor, now)])
      case Stopping(actor, buffered) =>
        if |buffered| < c.buffer then s1.(entries := s.entries[key := Stopping(actor, buffered + [n])])
        else s1.(refused := s1.refused + {n})
  }

  /** The buffered messages the replacement's mailbox accepts, in order. */
  function Posts(actor: nat, buffered: seq<nat>, accepts: nat -> bool): seq<Post> {
    if buffered == [] then []
    else (if accepts(buffered[0]) then [Message(actor, buffered[0])] else []) + Posts(actor, buffered[1..], accepts)
  }

  function Rejects(buffered: seq<nat>, accepts: nat -> bool): set<nat> {
    set n | n in buffered && !accepts(n)
  }

  /** The handling of an entity's terminated signal. */
  function Gone(s: State, actor: nat, now: nat, newId: nat, accepts: nat -> bool): State {
    if actor !in s.keys then s
    else
      var key := s.keys[actor];
      var s1 := s.(keys := s.keys - {actor}, entries := s.entries - {key});
      if key in s.entries && s.entries[key].Stopping? && s.entries[key].buffered != [] then
        var buffered := s.entries[key].buffered;
        Remember(s1.(log := s1.log + Posts(newId, buffered, accepts),
                     refused := s1.refused + Rejects(buffered, accepts)),
                 key, newId, now)
      else s1
  }

  predicate Idle(c: Config, e: Entry, now: nat) {
    e.Live? && c.idleTimeout.Some? && now >= e.lastMessage && now - e.lastMessage >= c.idleTimeout.value
  }

  function SweptKey(c: Config, s: State, key: Key, now: nat, accepts: nat -> bool): State {
    if key in s.entries && Idle(c, s.entries[key], now) && accepts(s.entries[key].actor) then
      s.(entries := s.entries[key := Stopping(s.entries[key].actor, [])],
         log := s.log + [Passivate(s.entries[key].actor)])
    else s
  }

  /** The sweep visits the entries in whatever order the map yields them. */
  function Swept(c: Config, s: State, order: seq<Key>, now: nat, accepts: nat -> bool): State
    decreases order
  {
    if order == [] then s else Swept(c, SweptKey(c, s, order[0], now, accepts), order[1..], now, accepts)
  }

  function Ticking(c: Config, s: State, newId: nat): State {
    s.(ticker := if c.idleTimeout.Some? then Some(newId) else None)
  }

  // ----- the handlers, updating the state in place

  class Host {
    const config: Config
    var entries: map<Key, Entry>
    var keys: map<nat, Key>
    var ticker: Option<nat>
    var arrived: seq<Key>
    var log: seq<Post>
    var refused: set<nat>
    var spawned: map<nat, Key>

    function Now(): State
      reads this
    {
      State(entries, keys, ticker, arrived, log, refused, spawned)
    }

    constructor (config: Config, tickerId: nat)
      ensures this.config == config && Now() == Ticking(config, EMPTY, tickerId)
    {
      this.config := config;
      entries, keys, arrived, log, refused, spawned := map[], map[], [], [], {}, map[];
      ticker := if config.idleTimeout.Some? then Some(tickerId) else None;
    }

    method Send(actor: nat, n: nat, accepted: bool)
      modifies this`log, this`refused
      ensures Now() == Tell(old(Now()), actor, n, accepted)
    {
      if accepted {
        log := log + [Message(actor, n)];
      } else {
        refused := refused + {n};
      }
    }

    method Route(key: Key, now: nat, newId: nat, accepted: bool)
      modifies this
      ensures Now() == Routed(config, old(Now()), key, now, newId, accepted)
    {
      var n := |arrived|;
      arrived := arrived + [key];
      if key in entries {
        match entries[key]
        case Live(actor, _) =>
          Send(actor, n, accepted);
          entries := entries[key := Live(actor, now)];
        case Stopping(actor, buffered) =>
          if |buffered| < config.buffer {
            entries := entries[key := Stopping(actor, buffered + [n])];
          } else {
            refused := refused + {n};
          }
      } else {
        Send(newId, n, accepted);
        keys, spawned := keys[newId := key], spawned[newId := key];
        entries := entries[key := Live(newId, now)];
      }
    }

    /** The buffer goes out in order, past a full mailbox; only a terminated entity refuses it. */
    method Deliver(actor: nat, buffered: seq<nat>, accepts: nat -> bool)
      modifies this`log, this`refused
      ensures log == old(log) + Posts(actor, buffered, accepts)
      ensures refused == old(refused) + Rejects(buffered, accepts)
    {
      for i := 0 to |buffered|
        invariant log + Posts(actor, buffered[i..], accepts) == old(log) + Posts(actor, buffered, accepts)
        invariant refused == old(refused) + Rejects(buffered[..i], accepts)
      {
        assert buffered[i..][1..] == buffered[i + 1..];
        if accepts(buffered[i]) {
          log := log + [Message(actor, buffered[i])];
        } else {
          refused := refused + {buffered[i]};
        }
      }
      assert buffered[..|buffered|] == buffered;
    }

    method EntityTerminated(actor: nat, now: nat, newId: nat, accepts: nat -> bool)
      modifies this
      ensures Now() == Gone(old(Now()), actor, now, newId, accepts)
    {
      if actor !in keys {
        return;
      }
      var key := keys[actor];
      keys := keys - {actor};
      var entry := if key in entries then Some(entries[key]) else None;
      entries := entries - {key};
      if entry.None? || entry.value.Live? || entry.value.buffered == [] {
        return;
      }
      var buffered := entry.value.buffered;
      Deliver(newId, buffered, accepts);
      keys, spawned := keys[newId := key], spawned[newId := key];
      entries := entries[key := Live(newId, now)];
    }

    /** Visits every entry once; `order` is the order it happened to take. */
    method PassivateIdle(now: nat, accepts: nat -> bool) returns (order: seq<Key>)
      modifies this`entries, this`log
      ensures forall key :: key in order <==> key in old(entries)
      ensures forall i, j | 0 <= i < j < |order| :: order[i] != order[j]
      ensures Now() == Swept(config, old(Now()), order, now, accepts)
    {
      order := [];
      var rest := entries.Keys;
      while rest != {}
        invariant rest <= old(entries.Keys) && entries.Keys == old(entries.Keys)
        invariant forall key :: key in order <==> key in old(entries.Keys) - rest
        invariant forall i, j | 0 <= i < j < |order| :: order[i] != order[j]
        invariant Now() == Swept(config, old(Now()), order, now, accepts)
      {
        var key :| key in rest;
        assert key !in order;
        rest := rest - {key};
        SweptSnoc(config, old(Now()), order, key, now, accepts);
        if config.idleTimeout.Some? {
          match entries[key]
          case Stopping(_, _) =>
          case Live(actor, lastMessage) =>
            if now >= lastMessage && now - lastMessage >= config.idleTimeout.value && accepts(actor) {
              entries := entries[key := Stopping(actor, [])];
              log := log + [Passivate(actor)];
            }
        }
        order := order + [key];
      }
    }

    /** The terminated signal of the ticker is the wake-up for a sweep; any other one is an entity's. */
    method Terminated(actor: nat, now: nat, newId: nat, accepts: nat -> bool) returns (order: seq<Key>)
      modifies this
      ensures Now() ==
        if old(ticker) == Some(actor)
        then Ticking(config, Swept(config, old(Now()), order, now, accepts), newId)
        else Gone(old(Now()), actor, now, newId, accepts)
      ensures old(ticker) == Some(actor) ==> forall key :: key in order <==> key in old(entries)
    {
      order := [];
      if ticker == Some(actor) {
        order := PassivateIdle(now, accepts);
        ticker := if config.idleTimeout.Some? then Some(newId) else None;
      } else {
        EntityTerminated(actor, now, newId, accepts);
      }
    }
  }

  lemma {:induction false} SweptSnoc(
      c: Config, s: State, order: seq<Key>, key: Key, now: nat, accepts: nat -> bool)
    ensures Swept(c, s, order + [key], now, accepts) == SweptKey(c, Swept(c, s, order, now, accepts), key, now, accepts)
    decreases order
  {
    if order == [] {
      assert order + [key] == [key];
    } else {
      assert (order + [key])[1..] == order[1..] + [key];
      SweptSnoc(c, SweptKey(c, s, order[0], now, accepts), order[1..], key, now, accepts);
    }
  }
}
