/** The mailbox quota: a reservation is taken before enqueueing and released on dequeue. */
module Quotas {
  import opened Prelude

  /** Ordinary messages, messages forced past a full mailbox, and signals that bypass the quota. */
  datatype Kind = Counted | Forced | Signal

  datatype SendError = Full | Disconnected

  // ----- the quota and the counted sender as objects

  class Quota {
    const capacity: Option<nat>
    var count: nat

    constructor (capacity: Option<nat>)
      ensures this.capacity == capacity && count == 0
    {
      this.capacity, count := capacity, 0;
    }

    method Reserve() returns (reserved: bool)
      modifies this
      ensures reserved <==> (capacity.None? || old(count) < capacity.value)
      ensures count == if reserved && capacity.Some? then old(count) + 1 else old(count)
    {
      if capacity.None? {
        return true;
      }
      if count < capacity.value {
        count := count + 1;
        return true;
      }
      return false;
    }

    method ReserveForced()
      modifies this
      ensures count == if capacity.Some? then old(count) + 1 else old(count)
    {
      if capacity.Some? {
        count := count + 1;
      }
    }

    method Unreserve()
      requires capacity.Some? ==> count > 0
      modifies this
      ensures count == if capacity.Some? then old(count) - 1 else old(count)
    {
      if capacity.Some? {
        count := count - 1;
      }
    }
  }

  class CountedSender {
    const quota: Quota
    var connected: bool
    var items: seq<Kind>

    constructor (capacity: Option<nat>)
      ensures fresh(quota) && quota.capacity == capacity && quota.count == 0
      ensures connected && items == []
    {
      quota := new Quota(capacity);
      connected, items := true, [];
    }

    /** The channel's own send: fails once the receiver is gone. */
    method Enqueue(kind: Kind) returns (sent: bool)
      modifies this
      ensures sent == old(connected) && connected == old(connected)
      ensures items == if sent then old(items) + [kind] else old(items)
    {
      if connected {
        items := items + [kind];
      }
      return connected;
    }

    /** A failed send costs no capacity; termination overrides a full mailbox as its reason. */
    method TrySendCounted() returns (r: Result<(), SendError>)
      modifies this, quota
      ensures connected == old(connected)
      ensures r == if !connected then Err(Disconnected)
                   else if quota.capacity.Some? && old(quota.count) >= quota.capacity.value then Err(Full)
                   else Ok(())
      ensures items == if r.Ok? then old(items) + [Counted] else old(items)
      ensures quota.count == if r.Ok? && quota.capacity.Some? then old(quota.count) + 1 else old(quota.count)
    {
      var reserved := quota.Reserve();
      if reserved {
        var sent := Enqueue(Counted);
        if sent {
          return Ok(());
        }
        quota.Unreserve();
        return Err(Disconnected);
      }
      return Err(if connected then Full else Disconnected);
    }

    method TrySendForced() returns (r: Result<(), SendError>)
      modifies this, quota
      ensures connected == old(connected)
      ensures r == if connected then Ok(()) else Err(Disconnected)
      ensures items == if r.Ok? then old(items) + [Forced] else old(items)
      ensures quota.count == if r.Ok? && quota.capacity.Some? then old(quota.count) + 1 else old(quota.count)
    {
      quota.ReserveForced();
      var sent := Enqueue(Forced);
      if !sent {
        quota.Unreserve();
        return Err(Disconnected);
      }
      return Ok(());
    }
  }

  // ----- interleaved senders and one receiver

  /**
   * `sent` is everything ever enqueued and `taken` how much was dequeued; `ordinary` and `forcing`
   * are the senders between reserving and sending; `releasing` is a dequeued message whose
   * reservation the receiver has not released yet; `dropped` counts the reservations of messages
   * discarded by the termination drain, which nothing releases anymore.
   */
  datatype Box = Box(
    capacity: nat,
    count: int,
    sent: seq<Kind>,
    taken: nat,
    ordinary: set<nat>,
    forcing: set<nat>,
    releasing: Option<Kind>,
    connected: bool,
    dropped: nat)

  datatype Action =
    | Reserve(i: nat)
    | ReserveForced(i: nat)
    | SendReserved(i: nat)
    | SendFails(i: nat)
    | SendSignal
    | Dequeue
    | Release
    | Drain
    | Disconnect

  function Waiting(b: Box): seq<Kind>
    requires b.taken <= |b.sent|
  {
    b.sent[b.taken..]
  }

  predicate Enabled(b: Box, act: Action) {
    && b.taken <= |b.sent|
    && match act
       case Reserve(i) => i !in b.ordinary + b.forcing && b.count < b.capacity
       case ReserveForced(i) => i !in b.ordinary + b.forcing
       case SendReserved(i) => i in b.ordinary + b.forcing && b.connected
       case SendFails(i) => i in b.ordinary + b.forcing && !b.connected
       case SendSignal => b.connected
       case Dequeue => b.connected && b.releasing.None? && b.taken < |b.sent|
       case Release => b.releasing.Some?
       case Drain => b.connected && b.releasing.None?
       case Disconnect => b.connected && b.releasing.None?
  }

  function Next(b: Box, act: Action): Box
    requires Enabled(b, act)
  {
    match act
    case Reserve(i) => b.(count := b.count + 1, ordinary := b.ordinary + {i})
    case ReserveForced(i) => b.(count := b.count + 1, forcing := b.forcing + {i})
    case SendReserved(i) =>
      b.(sent := b.sent + [if i in b.ordinary then Counted else Forced],
         ordinary := b.ordinary - {i},
         forcing := b.forcing - {i})
    case SendFails(i) =>
      b.(count := b.count - 1, ordinary := b.ordinary - {i}, forcing := b.forcing - {i})
    case SendSignal => b.(sent := b.sent + [Signal])
    case Dequeue =>
      var kind := b.sent[b.taken];
      b.(taken := b.taken + 1, releasing := if kind.Signal? then None else Some(kind))
    case Release => b.(count := b.count - 1, releasing := None)
    case Drain =>
      b.(taken := |b.sent|, dropped := b.dropped + Messages(Waiting(b)))
    case Disconnect => b.(connected := false)
  }

  function Messages(items: seq<Kind>): nat {
    if items == [] then 0 else (if items[0].Signal? then 0 else 1) + Messages(items[1..])
  }

  function Ordinary(items: seq<Kind>): nat {
    if items == [] then 0 else (if items[0].Counted? then 1 else 0) + Ordinary(items[1..])
  }

  ghost predicate IsRun(capacity: nat, run: seq<Box>, acts: seq<Action>) {
    && |run| == |acts| + 1
    && run[0] == Box(capacity, 0, [], 0, {}, {}, None, true, 0)
    && forall k | 0 <= k < |acts| :: Enabled(run[k], acts[k]) && run[k + 1] == Next(run[k], acts[k])
  }

  // ----- accounting

  function ReleasingOrdinary(b: Box): nat {
    if b.releasing == Some(Counted) then 1 else 0
  }

  ghost predicate Inv(b: Box) {
    && b.taken <= |b.sent|
    && b.ordinary !! b.forcing
    && b.releasing != Some(Signal)
    && b.count == Messages(Waiting(b)) + |b.ordinary| + |b.forcing|
                  + (if b.releasing.Some? then 1 else 0) + b.dropped
    && Ordinary(Waiting(b)) + |b.ordinary| + ReleasingOrdinary(b) <= b.capacity
  }

  lemma {:induction false} Counts(items: seq<Kind>, kind: Kind)
    ensures Messages(items + [kind]) == Messages(items) + if kind.Signal? then 0 else 1
    ensures Ordinary(items + [kind]) == Ordinary(items) + if kind.Counted? then 1 else 0
  {
    if items == [] {
      assert items + [kind] == [kind];
    } else {
      assert (items + [kind])[1..] == items[1..] + [kind];
      Counts(items[1..], kind);
    }
  }

  lemma {:induction false} OrdinaryAreMessages(items: seq<Kind>)
    ensures Ordinary(items) <= Messages(items)
  {
    if items != [] {
      OrdinaryAreMessages(items[1..]);
    }
  }

  lemma SendKeepsInv(b: Box, b': Box, kind: Kind)
    requires b.taken <= |b.sent| && b'.taken == b.taken && b'.sent == b.sent + [kind]
    ensures Messages(Waiting(b')) == Messages(Waiting(b)) + if kind.Signal? then 0 else 1
    ensures Ordinary(Waiting(b')) == Ordinary(Waiting(b)) + if kind.Counted? then 1 else 0
  {
    assert Waiting(b') == Waiting(b) + [kind];
    Counts(Waiting(b), kind);
  }

  /** A sender that leaves releases or hands over exactly one reservation. */
  lemma SenderLeaves(b: Box, act: Action)
    requires Inv(b) && Enabled(b, act) && (act.SendReserved? || act.SendFails?)
    ensures Inv(Next(b, act))
  {
    var b' := Next(b, act);
    if act.SendReserved? {
      SendKeepsInv(b, b', b'.sent[|b.sent|]);
    } else {
      assert Waiting(b') == Waiting(b);
    }
    if act.i in b.ordinary {
      assert b'.forcing == b.forcing;
    } else {
      assert b'.ordinary == b.ordinary;
    }
  }

  lemma ReceiverSteps(b: Box, act: Action)
    requires Inv(b) && Enabled(b, act) && (act.Dequeue? || act.Drain?)
    ensures Inv(Next(b, act))
  {
    assert Waiting(Next(b, act)) == if act.Dequeue? then Waiting(b)[1..] else [];
  }

  lemma StepKeepsInv(b: Box, act: Action)
    requires Inv(b) && Enabled(b, act)
    ensures Inv(Next(b, act))
  {
    if act.SendReserved? || act.SendFails? {
      SenderLeaves(b, act);
    } else if act.Dequeue? || act.Drain? {
      ReceiverSteps(b, act);
    } else if act.SendSignal? {
      SendKeepsInv(b, Next(b, act), Signal);
    } else {
      OrdinaryAreMessages(Waiting(b));
      assert Waiting(Next(b, act)) == Waiting(b);
    }
  }

  lemma StartInv(capacity: nat)
    ensures Inv(Box(capacity, 0, [], 0, {}, {}, None, true, 0))
  {
  }

  lemma {:induction false} RunInv(capacity: nat, run: seq<Box>, acts: seq<Action>, k: nat)
    requires IsRun(capacity, run, acts) && k < |run|
    ensures Inv(run[k]) && run[k].capacity == capacity
  {
    if k == 0 {
      StartInv(capacity);
    } else {
      RunInv(capacity, run, acts, k - 1);
      StepKeepsInv(run[k - 1], acts[k - 1]);
      assert Next(run[k - 1], acts[k - 1]).capacity == run[k - 1].capacity;
    }
  }

  /**
   * In every interleaving the count is what is queued, reserved or being released, plus what the
   * termination drain discarded; it never underflows, and ordinary messages never exceed the
   * capacity, even beside forced ones.
   */
  lemma QuotaAccounts(capacity: nat, run: seq<Box>, acts: seq<Action>, k: nat)
    requires IsRun(capacity, run, acts) && k < |run|
    ensures var b := run[k];
      && b.taken <= |b.sent|
      && 0 <= b.count
      && b.count == Messages(Waiting(b)) + |b.ordinary| + |b.forcing| + (if b.releasing.Some? then 1 else 0) + b.dropped
      && Ordinary(Waiting(b)) + |b.ordinary| + ReleasingOrdinary(b) <= capacity
    ensures k < |acts| && (acts[k].Release? || acts[k].SendFails?) ==> run[k].count > 0
  {
    RunInv(capacity, run, acts, k);
  }

  /** The queue is append-only and dequeued from one end. */
  lemma {:induction false} QueueGrows(capacity: nat, run: seq<Box>, acts: seq<Action>, k: nat, l: nat)
    requires IsRun(capacity, run, acts) && k <= l < |run|
    ensures run[k].sent <= run[l].sent && run[k].taken <= run[l].taken
    decreases l
  {
    if k < l {
      QueueGrows(capacity, run, acts, k, l - 1);
    }
  }

  /** The step enqueues the item, a message or a signal. */
  predicate Enters(b: Box, act: Action, b': Box, item: Kind) {
    (act.SendReserved? || act.SendSignal?) && b'.sent == b.sent + [item]
  }

  /** The step dequeues the item that entered at the position. */
  predicate Leaves(b: Box, act: Action, b': Box, position: nat, item: Kind) {
    && act.Dequeue? && position == b.taken < |b.sent| && b.sent[position] == item && b'.taken == position + 1
    && b'.releasing == if item.Signal? then None else Some(item)
  }

  /** A dequeue takes the oldest item that has not left: the one that entered at that position. */
  lemma DequeueTakesOldest(capacity: nat, run: seq<Box>, acts: seq<Action>, e: nat, k: nat)
    requires IsRun(capacity, run, acts) && e < |acts| && k < |acts| && acts[k].Dequeue?
    requires acts[e].SendReserved? || acts[e].SendSignal?
    requires run[k].taken == |run[e].sent|
    ensures e < k
    ensures |run[e + 1].sent| == |run[e].sent| + 1
    ensures var item := run[e + 1].sent[|run[e].sent|];
      Enters(run[e], acts[e], run[e + 1], item) && Leaves(run[k], acts[k], run[k + 1], |run[e].sent|, item)
  {
    if k <= e {
      QueueGrows(capacity, run, acts, k, e);
    } else {
      QueueGrows(capacity, run, acts, e + 1, k);
    }
  }

  /**
   * One FIFO for messages and signals: of two items, whatever their kinds, the one that entered
   * first leaves first.
   */
  lemma FirstInFirstOut(
      capacity: nat, run: seq<Box>, acts: seq<Action>, e: nat, f: nat, k: nat, l: nat, x: Kind, y: Kind)
    requires IsRun(capacity, run, acts) && e < f < |acts| && k < |acts| && l < |acts|
    requires Enters(run[e], acts[e], run[e + 1], x) && Enters(run[f], acts[f], run[f + 1], y)
    requires Leaves(run[k], acts[k], run[k + 1], |run[e].sent|, x)
    requires Leaves(run[l], acts[l], run[l + 1], |run[f].sent|, y)
    ensures k < l
  {
    QueueGrows(capacity, run, acts, e + 1, f);
    if l <= k {
      QueueGrows(capacity, run, acts, l, k);
    }
  }

  /** The box after the actions, if each is possible in its turn. */
  function Played(b: Box, acts: seq<Action>): Option<Box>
    decreases |acts|
  {
    if acts == [] then Some(b)
    else if Enabled(b, acts[0]) then Played(Next(b, acts[0]), acts[1..])
    else None
  }

  lemma {:induction false} PlayedOn(b: Box, act: Action, rest: seq<Action>)
    requires Enabled(b, act)
    ensures Played(b, [act] + rest) == Played(Next(b, act), rest)
  {
    assert ([act] + rest)[1..] == rest;
  }

  lemma OutAndBack(senders: set<nat>, i: nat)
    requires i !in senders
    ensures senders + {i} - {i} == senders && senders - {i} == senders
  {
  }

  function Reserving(i: nat, forced: bool): Action {
    if forced then ReserveForced(i) else Reserve(i)
  }

  predicate CanReserve(b: Box, i: nat, forced: bool) {
    b.taken <= |b.sent| && i !in b.ordinary && i !in b.forcing && (forced || b.count < b.capacity)
  }

  /** What a reservation becomes: the message in the queue, or nothing at all. */
  lemma Reserved(b: Box, i: nat, forced: bool)
    requires CanReserve(b, i, forced)
    ensures Enabled(b, Reserving(i, forced))
    ensures var b1 := Next(b, Reserving(i, forced));
      if b.connected then
        && Enabled(b1, SendReserved(i))
        && Next(b1, SendReserved(i)) ==
           b.(sent := b.sent + [if forced then Forced else Counted], count := b.count + 1)
      else Enabled(b1, SendFails(i)) && Next(b1, SendFails(i)) == b
  {
    OutAndBack(b.ordinary, i);
    OutAndBack(b.forcing, i);
  }

  /** Reserving for a send that then fails costs nothing. */
  lemma {:induction false} FailedSendIsFree(b: Box, i: nat, forced: bool)
    requires CanReserve(b, i, forced) && !b.connected
    ensures Played(b, [Reserving(i, forced), SendFails(i)]) == Some(b)
  {
    Reserved(b, i, forced);
    var reserve := Reserving(i, forced);
    assert [reserve, SendFails(i)] == [reserve] + [SendFails(i)] && [SendFails(i)] == [SendFails(i)] + [];
    PlayedOn(b, reserve, [SendFails(i)]);
    PlayedOn(Next(b, reserve), SendFails(i), []);
  }

  /**
   * A message that passes through an otherwise empty mailbox leaves the quota as it was, forced past
   * a full one or not.
   */
  lemma {:induction false} PassingThroughIsFree(b: Box, i: nat, forced: bool)
    requires CanReserve(b, i, forced) && b.connected && b.taken == |b.sent| && b.releasing.None?
    ensures Played(b, [Reserving(i, forced), SendReserved(i), Dequeue, Release]) ==
      Some(b.(sent := b.sent + [if forced then Forced else Counted], taken := b.taken + 1))
  {
    Reserved(b, i, forced);
    var reserve := Reserving(i, forced);
    var b1 := Next(b, reserve);
    var b2 := Next(b1, SendReserved(i));
    assert [reserve, SendReserved(i), Dequeue, Release] == [reserve] + [SendReserved(i), Dequeue, Release];
    PlayedOn(b, reserve, [SendReserved(i), Dequeue, Release]);
    assert [SendReserved(i), Dequeue, Release] == [SendReserved(i)] + [Dequeue, Release];
    PlayedOn(b1, SendReserved(i), [Dequeue, Release]);
    assert [Dequeue, Release] == [Dequeue] + [Release] && [Release] == [Release] + [];
    PlayedOn(b2, Dequeue, [Release]);
    PlayedOn(Next(b2, Dequeue), Release, []);
  }
}
