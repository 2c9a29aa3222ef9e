/** The in-memory store and the sequential code that runs against it: `recover` and `settle`. */
module InMemory {
  import opened Prelude
  import opened SeqNos
  import opened Versioned
  import opened EventSourced
  import opened Fencing

  type PersistenceId(==, !new)

  class InMemoryStore {
    var streams: map<PersistenceId, seq<StoredEvent>>
    var snapshots: map<PersistenceId, StoredSnapshot>

    /** A vector's length is below 2^63. */
    ghost predicate Valid()
      reads this
    {
      forall id | id in streams :: |streams[id]| <= STREAM_LIMIT
    }

    function Stream(id: PersistenceId): seq<StoredEvent>
      reads this
    {
      if id in streams then streams[id] else []
    }

    function Slot(id: PersistenceId): Option<StoredSnapshot>
      reads this
    {
      if id in snapshots then Some(snapshots[id]) else None
    }

    constructor ()
      ensures Valid() && streams == map[] && snapshots == map[]
    {
      streams, snapshots := map[], map[];
    }

    /** All events at the expected position or, on any other expectation, none. */
    method Append(id: PersistenceId, next: SeqNo, events: seq<Encoded>) returns (appended: bool)
      requires Valid() && |Stream(id)| + |events| <= STREAM_LIMIT
      modifies this`streams
      ensures Valid()
      ensures appended <==> |old(Stream(id))| == next
      ensures match ConditionalAppend(old(Stream(id)), next, events)
              case Appended(stream) => appended && Stream(id) == stream
              case _ => !appended && Stream(id) == old(Stream(id))
      ensures forall other | other != id :: Stream(other) == old(Stream(other))
    {
      var stream := if id in streams then streams[id] else [];
      streams := streams[id := stream];
      if |stream| != next {
        return false;
      }

      for n := 0 to |events|
        invariant stream == old(Stream(id)) + Rows(next, events)[..n]
        invariant streams == old(streams)[id := old(Stream(id))]
      {
        stream := stream + [StoredEvent(AdvancedBy(next, n), events[n])];
      }
      streams := streams[id := stream];
      return true;
    }

    method ReadFrom(id: PersistenceId, from: SeqNo, limit: nat) returns (page: seq<StoredEvent>)
      ensures page == Read(Stream(id), from, limit)
      ensures |page| <= limit
      ensures forall i | 0 <= i < |page| :: from + i < |Stream(id)| && page[i] == Stream(id)[from + i]
      ensures |page| < limit ==> from + |page| >= |Stream(id)|
    {
      page := [];
      if id in streams {
        var stream := streams[id];
        var start := if from < |stream| then from else |stream|;
        var end := if start + limit < |stream| then start + limit else |stream|;
        page := stream[start..end];
      }
    }

    /** The latest save wins, whatever position the slot held before. */
    method Save(id: PersistenceId, next: SeqNo, snapshot: Encoded)
      modifies this`snapshots
      ensures Slot(id) == Some(StoredSnapshot(next, snapshot))
      ensures forall other | other != id :: Slot(other) == old(Slot(other))
    {
      snapshots := snapshots[id := StoredSnapshot(next, snapshot)];
    }
  }

  // ----- recovery

  /** The part of the stream from a position on. */
  function Tail(stream: seq<StoredEvent>, from: SeqNo): seq<StoredEvent> {
    if from <= |stream| then stream[from..] else []
  }

  /** Where recovery starts: the state and position of a snapshot that decodes, or the seed. */
  function Base(a: Actor, slot: Option<StoredSnapshot>): (State, SeqNo) {
    match slot
    case None => (a.init, 0)
    case Some(stored) =>
      match DecodeVersioned(a.snapshots, stored.snapshot)
      case Err(_) => (a.init, 0)
      case Ok(snapshot) => (a.initFromSnapshot(snapshot), stored.nextSeqNo)
  }

  /** Recovery without paging: the whole tail in one replay. */
  function RecoverAtOnce(a: Actor, slot: Option<StoredSnapshot>, stream: seq<StoredEvent>)
    : Result<(State, SeqNo), ReplayError>
  {
    var (state, next) := Base(a, slot);
    ReplayPage(a, state, next, Tail(stream, next))
  }

  /** The outcome of a replay, without the reason of a failure. */
  function Outcome(r: Result<(State, SeqNo), ReplayError>): Option<(State, SeqNo)> {
    match r
    case Ok(recovered) => Some(recovered)
    case Err(_) => None
  }

  /** With a snapshot that decodes, what stands before its position does not matter, decodable or not. */
  lemma PrefixIsIrrelevant(
      a: Actor, stored: StoredSnapshot, xs: seq<StoredEvent>, ys: seq<StoredEvent>)
    requires DecodeVersioned(a.snapshots, stored.snapshot).Ok?
    requires stored.nextSeqNo <= |xs| && stored.nextSeqNo <= |ys| && xs[stored.nextSeqNo..] == ys[stored.nextSeqNo..]
    ensures RecoverAtOnce(a, Some(stored), xs) == RecoverAtOnce(a, Some(stored), ys)
  {
  }

  /** The step of the machine that loads the snapshot starts where the sequential code does. */
  lemma MachineLoadsBase(a: Actor, run: seq<World>, acts: seq<Action>, k: nat)
    requires IsRun(a, run, acts) && k < |acts| && acts[k].LoadSnapshot?
    ensures run[k + 1].phases[acts[k].i] == Replaying(Base(a, run[k].slot).0, Base(a, run[k].slot).1)
  {
  }

  lemma {:induction false} ReplayConcat(
      a: Actor, state: State, next: SeqNo, xs: seq<StoredEvent>, ys: seq<StoredEvent>)
    ensures ReplayPage(a, state, next, xs + ys) ==
      match ReplayPage(a, state, next, xs)
      case Err(error) => Err(error)
      case Ok((state', next')) => ReplayPage(a, state', next', ys)
    decreases xs
  {
    if xs == [] {
      assert xs + ys == ys;
    } else if xs[0].seqNo == next && DecodeVersioned(a.events, xs[0].event).Ok? {
      var event := DecodeVersioned(a.events, xs[0].event).value;
      assert (xs + ys)[1..] == xs[1..] + ys;
      ReplayConcat(a, a.apply(state, event), Succ(next), xs[1..], ys);
    }
  }

  /** A replayed page moves the position by its length. */
  lemma {:induction false} ReplayAdvances(a: Actor, state: State, next: SeqNo, page: seq<StoredEvent>)
    requires next + |page| <= U64_MAX && ReplayPage(a, state, next, page).Ok?
    ensures ReplayPage(a, state, next, page).value.1 == next + |page|
    decreases page
  {
    if page != [] {
      ReplayAdvances(a, a.apply(state, DecodeVersioned(a.events, page[0].event).value), Succ(next), page[1..]);
    }
  }

  /** How many reads it takes to see the whole tail. */
  function Pages(stream: seq<StoredEvent>, from: SeqNo): nat {
    |Tail(stream, from)| / REPLAY_PAGE + 1
  }

  /** The next full page and what is left behind it. */
  lemma PageAndRest(stream: seq<StoredEvent>, from: SeqNo)
    requires |stream| <= STREAM_LIMIT
    ensures var page := Read(stream, from, REPLAY_PAGE);
      if |page| == REPLAY_PAGE then
        && from + REPLAY_PAGE <= |stream|
        && Tail(stream, from) == page + Tail(stream, from + REPLAY_PAGE)
        && Pages(stream, from) == 1 + Pages(stream, from + REPLAY_PAGE)
      else
        |page| < REPLAY_PAGE && Tail(stream, from) == page && Pages(stream, from) == 1
    ensures Read(stream, from, REPLAY_PAGE) != [] ==> from + |Read(stream, from, REPLAY_PAGE)| <= |stream|
  {
  }

  /** One page and then the rest is the whole tail. */
  lemma PageStep(a: Actor, stream: seq<StoredEvent>, state: State, next: SeqNo)
    requires |stream| <= STREAM_LIMIT
    ensures var page := Read(stream, next, REPLAY_PAGE);
      var r, all := ReplayPage(a, state, next, page), ReplayPage(a, state, next, Tail(stream, next));
      if r.Err? then all.Err?
      else if |page| < REPLAY_PAGE then all == r && Pages(stream, next) == 1
      else
        && all == ReplayPage(a, r.value.0, r.value.1, Tail(stream, r.value.1))
        && Pages(stream, next) == 1 + Pages(stream, r.value.1)
  {
    var page := Read(stream, next, REPLAY_PAGE);
    PageAndRest(stream, next);
    if |page| == REPLAY_PAGE {
      ReplayConcat(a, state, next, page, Tail(stream, next + REPLAY_PAGE));
      if ReplayPage(a, state, next, page).Ok? {
        ReplayAdvances(a, state, next, page);
      }
    }
  }

  /**
   * Recovery replays what is behind a snapshot that decodes, from that snapshot, and else the whole
   * stream from the seed. The page loop is invisible: it ends where replaying all that at once ends,
   * fails exactly when that fails, and takes one read per full page and one more for the short one.
   */
  method Recover(a: Actor, store: InMemoryStore, id: PersistenceId)
    returns (recovered: Option<(State, SeqNo)>, pages: nat)
    requires store.Valid()
    ensures recovered == Outcome(RecoverAtOnce(a, store.Slot(id), store.Stream(id)))
    ensures forall s, v | store.Slot(id) == Some(s) && DecodeVersioned(a.snapshots, s.snapshot) == Ok(v) ::
      var tail := if s.nextSeqNo <= |store.Stream(id)| then store.Stream(id)[s.nextSeqNo..] else [];
      && recovered == Outcome(ReplayPage(a, a.initFromSnapshot(v), s.nextSeqNo, tail))
      && (recovered.Some? ==> pages == |tail| / REPLAY_PAGE + 1) && pages <= |tail| / REPLAY_PAGE + 1
    ensures store.Slot(id).None? || DecodeVersioned(a.snapshots, store.Slot(id).value.snapshot).Err? ==>
      var stream := store.Stream(id);
      && recovered == Outcome(ReplayPage(a, a.init, 0, stream))
      && (recovered.Some? ==> pages == |stream| / REPLAY_PAGE + 1) && pages <= |stream| / REPLAY_PAGE + 1
  {
    var slot := store.Slot(id);
    var state, next := a.init, 0;
    if slot.Some? {
      match DecodeVersioned(a.snapshots, slot.value.snapshot) {
        case Ok(snapshot) => state, next := a.initFromSnapshot(snapshot), slot.value.nextSeqNo;
        case Err(_) =>
      }
    }

    ghost var stream := store.Stream(id);
    ghost var outcome := ReplayPage(a, state, next, Tail(stream, next));
    ghost var all := Pages(stream, next);
    pages := 0;
    while true
      invariant ReplayPage(a, state, next, Tail(stream, next)) == outcome
      invariant pages + Pages(stream, next) == all
      decreases Pages(stream, next)
    {
      var page := store.ReadFrom(id, next, REPLAY_PAGE);
      pages := pages + 1;
      PageStep(a, stream, state, next);

      match ReplayPage(a, state, next, page) {
        case Err(_) => return None, pages;
        case Ok((state', next')) => state, next := state', next';
      }
      if |page| < REPLAY_PAGE {
        return Some((state, next)), pages;
      }
    }
  }

  lemma BaseIsGood(a: Actor, slot: Option<StoredSnapshot>, events: seq<Event>)
    requires slot.Some? ==> SnapshotGood(a, events, slot.value)
    ensures Good(a, events, Base(a, slot).0, Base(a, slot).1)
  {
    InitIsGood(a, events);
  }

  lemma TailReachesEnd(
      a: Actor, stream: seq<StoredEvent>, events: seq<Event>, state: State, next: SeqNo)
    requires Lawful(a) && |stream| <= STREAM_LIMIT && StoredAt(a, 0, stream, events) && Good(a, events, state, next)
    ensures var r := ReplayPage(a, state, next, Tail(stream, next));
      r.Ok? && r.value.1 == |stream| && Good(a, events, r.value.0, |stream|)
  {
    var tail, rest := Tail(stream, next), events[next..|stream|];
    assert tail == stream[next..|stream|];
    StoredSlice(a, stream, events, next, |stream|);
    ReplayPageApplies(a, state, next, tail, rest);
    GoodAdvances(a, events, state, next, rest);
  }

  /** On a stream written by this code, recovery reaches its end with the fold of all its events. */
  lemma RecoverReachesEnd(a: Actor, slot: Option<StoredSnapshot>, stream: seq<StoredEvent>, events: seq<Event>)
    requires Lawful(a) && |stream| <= STREAM_LIMIT && StoredAt(a, 0, stream, events)
    requires slot.Some? ==> SnapshotGood(a, events, slot.value)
    ensures var r := RecoverAtOnce(a, slot, stream);
      r.Ok? && r.value.1 == |stream| && Good(a, events, r.value.0, |stream|)
  {
    BaseIsGood(a, slot, events);
    TailReachesEnd(a, stream, events, Base(a, slot).0, Base(a, slot).1);
  }

  /**
   * In every world the machine reaches, recovering with the stored snapshot, without it, or after
   * discarding it gives the same state and position.
   */
  lemma SnapshotIsInvisible(a: Actor, run: seq<World>, acts: seq<Action>, k: nat)
    requires Lawful(a) && IsRun(a, run, acts) && k < |run|
    ensures var (with, without) :=
        (RecoverAtOnce(a, run[k].slot, run[k].stream), RecoverAtOnce(a, None, run[k].stream));
      with.Ok? && without.Ok? && with.value.1 == without.value.1 && a.view(with.value.0) == a.view(without.value.0)
  {
    RunInv(a, run, acts, k);
    RecoverReachesEnd(a, run[k].slot, run[k].stream, Flat(run[k].history));
    RecoverReachesEnd(a, None, run[k].stream, Flat(run[k].history));
  }

  // ----- settlement

  datatype Settled = Settled(state: State, next: SeqNo, stop: bool)

  /** The continuations that get to run: up to and including the first one that fails. */
  function Started(thens: seq<Continuation>, succeeds: Continuation -> bool): seq<Continuation> {
    if thens == [] then []
    else if succeeds(thens[0]) then [thens[0]] + Started(thens[1..], succeeds)
    else [thens[0]]
  }

  /** Every continuation starts, or exactly those before and at the first that fails. */
  lemma {:induction false} StartedUpToFailure(thens: seq<Continuation>, succeeds: Continuation -> bool)
    ensures var ran := Started(thens, succeeds);
      && ran <= thens
      && (forall k | 0 <= k < |ran| - 1 :: succeeds(ran[k]))
      && ((forall k | 0 <= k < |thens| :: succeeds(thens[k])) ==> ran == thens)
      && ((exists k :: 0 <= k < |thens| && !succeeds(thens[k])) ==> ran != [] && !succeeds(ran[|ran| - 1]))
  {
    if thens != [] && succeeds(thens[0]) {
      var rest := thens[1..];
      StartedUpToFailure(rest, succeeds);
      var ran := Started(rest, succeeds);
      assert thens == [thens[0]] + rest;
      if k :| 0 <= k < |thens| && !succeeds(thens[k]) {
        assert rest[k - 1] == thens[k];
      }
      assert forall k | 0 < k < |Started(thens, succeeds)| :: Started(thens, succeeds)[k] == ran[k - 1];
    }
  }

  /** Runs the continuations in turn and gives up at the first one that fails. */
  method RunThens(thens: seq<Continuation>, succeeds: Continuation -> bool) returns (ok: bool, ran: seq<Continuation>)
    ensures ok <==> forall k | 0 <= k < |thens| :: succeeds(thens[k])
    ensures ran == Started(thens, succeeds)
  {
    ran := [];
    for k := 0 to |thens|
      invariant forall m | 0 <= m < k :: succeeds(thens[m])
      invariant Started(thens, succeeds) == ran + Started(thens[k..], succeeds)
    {
      assert thens[k..][1..] == thens[k + 1..];
      ran := ran + [thens[k]];
      if !succeeds(thens[k]) {
        return false, ran;
      }
    }
    return true, ran;
  }

  /**
   * Settling one effect: append, apply, continue, then offer a snapshot. It fails without touching
   * the stream when an event is not encodable or the expected position is stale, and after the
   * append when applying fails (`applies`) or a continuation does (`succeeds`). `ran` lists the
   * continuations that were started, in order.
   */
  method Settle(a: Actor, store: InMemoryStore, id: PersistenceId, state: State, next: SeqNo, effect: Effect,
                applies: bool, succeeds: Continuation -> bool, offered: Option<Snapshot>)
    returns (settled: Option<Settled>, ran: seq<Continuation>)
    requires store.Valid() && |store.Stream(id)| + |effect.events| <= STREAM_LIMIT
    modifies store
    ensures store.Valid()
    ensures
      var encoded := EncodeEvents(a, effect.events);
      var durable := effect.events != [] && encoded.Some? && |old(store.Stream(id))| == next;
      var continued := effect.events == [] || (durable && applies);
      && store.Stream(id) == old(store.Stream(id))
           + (if durable then Rows(next, encoded.value) else [])
      && ran == (if continued then Started(effect.thens, succeeds) else [])
      && (settled.Some? <==> continued && forall k | 0 <= k < |effect.thens| :: succeeds(effect.thens[k]))
    ensures settled.Some? ==>
      && settled.value.stop == effect.stop
      && settled.value.state == ApplyEvents(a, state, effect.events)
      && settled.value.next == AdvancedBy(next, |effect.events|)
    ensures store.Slot(id) ==
      if settled.Some? && effect.events != [] && offered.Some? && Encode(a.snapshots, offered.value).Some?
      then Some(StoredSnapshot(settled.value.next, Encode(a.snapshots, offered.value).value))
      else old(store.Slot(id))
    ensures forall other | other != id ::
      store.Stream(other) == old(store.Stream(other)) && store.Slot(other) == old(store.Slot(other))
  {
    var state', next' := state, next;
    ran := [];
    var appended := effect.events != [];
    if appended {
      var encoded := EncodeEvents(a, effect.events);
      if encoded.None? {
        return None, [];
      }
      EncodeEventsOutcome(a, effect.events);
      var accepted := store.Append(id, next, encoded.value);
      if !accepted || !applies {
        return None, [];
      }
      state' := ApplyEvents(a, state, effect.events);
      next' := AdvancedBy(next, |effect.events|);
    }
    var ok;
    ok, ran := RunThens(effect.thens, succeeds);
    if !ok {
      return None, ran;
    }
    if appended && offered.Some? {
      var snapshot := Encode(a.snapshots, offered.value);
      if snapshot.Some? {
        store.Save(id, next', snapshot.value);
      }
    }
    settled := Some(Settled(state', next', effect.stop));
  }
}
