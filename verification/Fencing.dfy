/**
 * Any number of incarnations of one persistence id over one event stream and one snapshot slot.
 * Every store call is a step of its own and every step may fail. Appends and snapshot saves are
 * requests in flight: the store may execute one late, after its writer was told that it failed,
 * after that writer restarted, or never.
 */
module Fencing {
  import opened Prelude
  import opened SeqNos
  import opened Versioned
  import opened EventSourced

  const REPLAY_PAGE: nat := 512

  /** A command an incarnation handled: on which state, with which effect, expecting which position. */
  datatype Decision = Decision(id: nat, command: Command, state: State, effect: Effect, at: SeqNo)

  datatype Phase =
    | Loading
    | Replaying(state: State, next: SeqNo)
    | Replayed(state: State, next: SeqNo)
    | Running(state: State, next: SeqNo)
    | Settling(id: nat)
    | Appending(id: nat)
    | Durable(id: nat)
    | Applied(state: State, next: SeqNo, id: nat)
    | Offering(state: State, next: SeqNo, id: nat)
    | Failed
    | Stopped

  /** The start of an effect's continuations: for which decision, on which state, at which position. */
  datatype Start = Start(id: nat, state: State, next: SeqNo)

  /** `decided`, `history` and `started` only record what happened; no step's guard reads the last two. */
  datatype World = World(
    stream: seq<StoredEvent>,
    slot: Option<StoredSnapshot>,
    phases: map<nat, Phase>,
    appends: map<nat, seq<Encoded>>,
    replies: map<nat, bool>,
    saves: set<StoredSnapshot>,
    decided: map<nat, Decision>,
    history: seq<Decision>,
    started: seq<Start>)

  datatype Action =
    | Spawn(i: nat)
    | LoadSnapshot(i: nat)
    | LoadDiscarding(i: nat)
    | ReadPage(i: nat)
    | Reconcile(i: nat, reconciled: State)
    | Handle(i: nat, newId: nat, command: Command, effect: Effect)
    | SubmitAppend(i: nat)
    | SkipAppend(i: nat)
    | ExecuteAppend(request: nat)
    | AppendReplied(i: nat)
    | Apply(i: nat)
    | RunThens(i: nat, succeeds: bool)
    | OfferSnapshot(i: nat, snapshot: Snapshot)
    | ExecuteSave(save: StoredSnapshot)
    | SpoilSnapshot(spoiled: StoredSnapshot)
    | Settle(i: nat)
    | Fail(i: nat)
    | Restart(i: nat)
    | StopByParent(i: nat)

  // ----- the stores

  function Read(stream: seq<StoredEvent>, from: SeqNo, limit: nat): seq<StoredEvent> {
    var start := if from <= |stream| then from else |stream|;
    var end := if start + limit <= |stream| then start + limit else |stream|;
    stream[start..end]
  }

  function Rows(at: SeqNo, rows: seq<Encoded>): seq<StoredEvent> {
    seq(|rows|, i requires 0 <= i < |rows| => StoredEvent(AdvancedBy(at, i), rows[i]))
  }

  datatype AppendOutcome = Appended(stream: seq<StoredEvent>) | Conflict | StoreError

  /** The conditional append every store promises: all rows at the expected position, or none. */
  function ConditionalAppend(stream: seq<StoredEvent>, at: SeqNo, rows: seq<Encoded>): AppendOutcome {
    if |stream| != at then Conflict
    else if |stream| + |rows| > STREAM_LIMIT then StoreError
    else Appended(stream + Rows(at, rows))
  }

  // ----- the steps

  function AfterLoad(a: Actor, slot: Option<StoredSnapshot>): Phase {
    if slot.Some? && DecodeVersioned(a.snapshots, slot.value.snapshot).Ok? then
      Replaying(a.initFromSnapshot(DecodeVersioned(a.snapshots, slot.value.snapshot).value), slot.value.nextSeqNo)
    else
      Replaying(a.init, 0)
  }

  function AfterPage(a: Actor, stream: seq<StoredEvent>, state: State, next: SeqNo): Phase {
    var page := Read(stream, next, REPLAY_PAGE);
    match ReplayPage(a, state, next, page)
    case Err(_) => Failed
    case Ok((state', next')) =>
      if |page| < REPLAY_PAGE then Replayed(state', next') else Replaying(state', next')
  }

  predicate CanFail(p: Phase) {
    p.Loading? || p.Replaying? || p.Replayed? || p.Running? || p.Settling? || p.Appending? || p.Durable?
  }

  ghost predicate Enabled(a: Actor, w: World, act: Action) {
    match act
    case Spawn(i) => i !in w.phases
    case LoadSnapshot(i) => i in w.phases && w.phases[i].Loading?
    case LoadDiscarding(i) => i in w.phases && w.phases[i].Loading?
    case ReadPage(i) => i in w.phases && w.phases[i].Replaying?
    case Reconcile(i, reconciled) =>
      i in w.phases && w.phases[i].Replayed? && a.recovered(w.phases[i].state, reconciled)
    case Handle(i, newId, command, effect) =>
      && i in w.phases && w.phases[i].Running?
      && a.handle(command, w.phases[i].state, effect)
      && newId !in w.decided
    case SubmitAppend(i) =>
      && i in w.phases && w.phases[i].Settling? && w.phases[i].id in w.decided
      && var effect := w.decided[w.phases[i].id].effect;
      && effect.events != []
      && EncodeEvents(a, effect.events).Some?
    case SkipAppend(i) =>
      && i in w.phases && w.phases[i].Settling? && w.phases[i].id in w.decided
      && w.decided[w.phases[i].id].effect.events == []
    case ExecuteAppend(request) => request in w.appends && request in w.decided
    case AppendReplied(i) => i in w.phases && w.phases[i].Appending? && w.phases[i].id in w.replies
    case Apply(i) => i in w.phases && w.phases[i].Durable? && w.phases[i].id in w.decided
    case RunThens(i, _) => i in w.phases && w.phases[i].Applied?
    case OfferSnapshot(i, snapshot) =>
      && i in w.phases && w.phases[i].Offering? && w.phases[i].id in w.decided
      && w.decided[w.phases[i].id].effect.events != []
      && a.offers(w.phases[i].state, snapshot)
      && Encode(a.snapshots, snapshot).Some?
    case ExecuteSave(save) => save in w.saves
    case SpoilSnapshot(spoiled) => DecodeVersioned(a.snapshots, spoiled.snapshot).Err?
    case Settle(i) => i in w.phases && w.phases[i].Offering? && w.phases[i].id in w.decided
    case Fail(i) => i in w.phases && CanFail(w.phases[i])
    case Restart(i) => i in w.phases && w.phases[i].Failed?
    case StopByParent(i) =>
      i in w.phases && (w.phases[i].Loading? || w.phases[i].Replaying? || w.phases[i].Running? || w.phases[i].Failed?)
  }

  ghost function To(w: World, i: nat, p: Phase): World {
    w.(phases := w.phases[i := p])
  }

  ghost function Executed(w: World, request: nat): World
    requires request in w.appends && request in w.decided
  {
    var rest := w.(appends := w.appends - {request});
    match ConditionalAppend(w.stream, w.decided[request].at, w.appends[request])
    case Conflict => rest.(replies := w.replies[request := false])
    case StoreError => rest
    case Appended(stream) =>
      rest.(stream := stream,
            replies := w.replies[request := true],
            history := w.history + [w.decided[request]])
  }

  ghost function Next(a: Actor, w: World, act: Action): World
    requires Enabled(a, w, act)
  {
    match act
    case Spawn(i) => To(w, i, Loading)
    case LoadSnapshot(i) => To(w, i, AfterLoad(a, w.slot))
    case LoadDiscarding(i) => To(w, i, AfterLoad(a, None))
    case ReadPage(i) => To(w, i, AfterPage(a, w.stream, w.phases[i].state, w.phases[i].next))
    case Reconcile(i, reconciled) => To(w, i, Running(reconciled, w.phases[i].next))
    case Handle(i, newId, command, effect) =>
      var d := Decision(newId, command, w.phases[i].state, effect, w.phases[i].next);
      To(w, i, Settling(newId)).(decided := w.decided[newId := d])
    case SubmitAppend(i) =>
      var id := w.phases[i].id;
      To(w, i, Appending(id)).(appends := w.appends[id := EncodeEvents(a, w.decided[id].effect.events).value])
    case SkipAppend(i) =>
      var d := w.decided[w.phases[i].id];
      To(w, i, Applied(d.state, d.at, w.phases[i].id))
    case ExecuteAppend(request) => Executed(w, request)
    case AppendReplied(i) =>
      To(w, i, if w.replies[w.phases[i].id] then Durable(w.phases[i].id) else Failed)
    case Apply(i) =>
      var d := w.decided[w.phases[i].id];
      To(w, i, Applied(ApplyEvents(a, d.state, d.effect.events), AdvancedBy(d.at, |d.effect.events|), w.phases[i].id))
    case RunThens(i, succeeds) =>
      var p := w.phases[i];
      To(w, i, if succeeds then Offering(p.state, p.next, p.id) else Failed)
      .(started := w.started + [Start(p.id, p.state, p.next)])
    case OfferSnapshot(i, snapshot) =>
      w.(saves := w.saves + {StoredSnapshot(w.phases[i].next, Encode(a.snapshots, snapshot).value)})
    case ExecuteSave(save) => w.(slot := Some(save), saves := w.saves - {save})
    case SpoilSnapshot(spoiled) => w.(slot := Some(spoiled))
    case Settle(i) =>
      var p := w.phases[i];
      To(w, i, if w.decided[p.id].effect.stop then Stopped else Running(p.state, p.next))
    case Fail(i) => To(w, i, Failed)
    case Restart(i) => To(w, i, Loading)
    case StopByParent(i) => To(w, i, Stopped)
  }

  const START := World([], None, map[], map[], map[], {}, map[], [], [])

  ghost predicate IsRun(a: Actor, run: seq<World>, acts: seq<Action>) {
    && |run| == |acts| + 1
    && run[0] == START
    && forall k | 0 <= k < |acts| :: Enabled(a, run[k], acts[k]) && run[k + 1] == Next(a, run[k], acts[k])
  }

  // ----- what a stream and a state are worth

  /** All events of a history, batch after batch. */
  ghost function Flat(history: seq<Decision>): seq<Event> {
    if history == [] then []
    else Flat(history[..|history| - 1]) + history[|history| - 1].effect.events
  }

  /** The state is, in its persistent part, the fold of the first `next` events. */
  ghost predicate Good(a: Actor, events: seq<Event>, state: State, next: nat) {
    next <= |events| && a.view(state) == a.view(Fold(a, events[..next]))
  }

  /** `handle` made this decision, on a state which folds exactly the events before its position. */
  ghost predicate Justified(a: Actor, events: seq<Event>, d: Decision) {
    && a.handle(d.command, d.state, d.effect)
    && Good(a, events, d.state, d.at)
  }

  /**
   * The history is one a single actor could have produced: command after command, each effect
   * decided on the fold of everything before it and appended as a whole right behind it.
   */
  ghost predicate Sequential(a: Actor, history: seq<Decision>) {
    history == [] ||
    var (before, d) := (history[..|history| - 1], history[|history| - 1]);
    && Sequential(a, before)
    && d.effect.events != []
    && d.at == |Flat(before)|
    && Justified(a, Flat(before), d)
  }

  /** The decision's events stand in the stream at the position it claimed. */
  ghost predicate Landed(events: seq<Event>, d: Decision) {
    && d.at + |d.effect.events| <= |events|
    && events[d.at..d.at + |d.effect.events|] == d.effect.events
  }

  ghost predicate SnapshotGood(a: Actor, events: seq<Event>, s: StoredSnapshot) {
    var decoded := DecodeVersioned(a.snapshots, s.snapshot);
    decoded.Ok? ==> Good(a, events, a.initFromSnapshot(decoded.value), s.nextSeqNo)
  }

  // ----- the invariant

  ghost predicate StreamInv(a: Actor, w: World) {
    && |w.stream| <= STREAM_LIMIT
    && StoredAt(a, 0, w.stream, Flat(w.history))
    && Sequential(a, w.history)
  }

  ghost predicate PhaseInv(a: Actor, w: World, p: Phase) {
    var events := Flat(w.history);
    match p
    case Replaying(state, next) => Good(a, events, state, next)
    case Replayed(state, next) => Good(a, events, state, next)
    case Running(state, next) => Good(a, events, state, next)
    case Settling(id) => id in w.decided
    case Appending(id) => id in w.decided
    case Durable(id) => id in w.decided && Landed(events, w.decided[id])
    case Applied(state, next, id) => Good(a, events, state, next) && SettledAt(w, id, next)
    case Offering(state, next, id) =>
      Good(a, events, state, next) && SettledAt(w, id, next)
    case _ => true
  }

  ghost predicate PhasesInv(a: Actor, w: World) {
    forall i | i in w.phases :: PhaseInv(a, w, w.phases[i])
  }

  /** The decision is durable and ends at the given position. */
  ghost predicate SettledAt(w: World, id: nat, next: nat) {
    && id in w.decided
    && Landed(Flat(w.history), w.decided[id])
    && next == w.decided[id].at + |w.decided[id].effect.events|
  }

  ghost predicate RequestInv(a: Actor, w: World) {
    && (forall id | id in w.decided :: Justified(a, Flat(w.history), w.decided[id]))
    && (forall id | id in w.appends ::
          && id in w.decided
          && w.decided[id].effect.events != []
          && Decodes(a, w.appends[id], w.decided[id].effect.events))
    && (forall id | id in w.replies && w.replies[id] :: id in w.decided && Landed(Flat(w.history), w.decided[id]))
  }

  ghost predicate SnapshotInv(a: Actor, w: World) {
    && (w.slot.Some? ==> SnapshotGood(a, Flat(w.history), w.slot.value))
    && (forall s | s in w.saves :: SnapshotGood(a, Flat(w.history), s))
  }

  ghost function StartedIds(w: World): set<nat> {
    set k | 0 <= k < |w.started| :: w.started[k].id
  }

  /** The decision of an incarnation whose continuations have not started. */
  function Holding(p: Phase): Option<nat> {
    match p
    case Settling(id) => Some(id)
    case Appending(id) => Some(id)
    case Durable(id) => Some(id)
    case Applied(_, _, id) => Some(id)
    case _ => None
  }

  ghost predicate OnceInv(w: World) {
    && (forall i | i in w.phases && Holding(w.phases[i]).Some? ::
          Holding(w.phases[i]).value in w.decided && Holding(w.phases[i]).value !in StartedIds(w))
    && (forall i, j | i in w.phases && j in w.phases && Holding(w.phases[i]).Some? && i != j ::
          Holding(w.phases[i]) != Holding(w.phases[j]))
    && (forall k | 0 <= k < |w.started| :: w.started[k].id in w.decided)
    && (forall k, l | 0 <= k < l < |w.started| :: w.started[k].id != w.started[l].id)
  }

  ghost predicate StartedInv(a: Actor, w: World) {
    forall k | 0 <= k < |w.started| ::
      && Good(a, Flat(w.history), w.started[k].state, w.started[k].next)
      && SettledAt(w, w.started[k].id, w.started[k].next)
  }

  /** The request of this decision, not of an equal one, extended the stream. */
  ghost predicate InHistory(w: World, id: nat) {
    exists k :: 0 <= k < |w.history| && w.history[k].id == id
  }

  /** Nothing was to be appended, or the store told this very writer that its own append succeeded. */
  ghost predicate Acked(w: World, id: nat) {
    id in w.decided && (w.decided[id].effect.events == [] || (id in w.replies && w.replies[id]))
  }

  /** Requests are executed at most once, and a reply tells the truth about its own request. */
  ghost predicate LedgerOk(w: World) {
    && (forall id | id in w.decided :: w.decided[id].id == id)
    && (forall id | id in w.appends :: id in w.decided && id !in w.replies)
    && (forall id | id in w.replies :: id in w.decided && (w.replies[id] ==> InHistory(w, id)))
    && (forall k | 0 <= k < |w.history| ::
          && w.history[k].id in w.decided && w.decided[w.history[k].id] == w.history[k]
          && w.history[k].id in w.replies && w.replies[w.history[k].id])
    && (forall k, l | 0 <= k < l < |w.history| :: w.history[k].id != w.history[l].id)
  }

  /** Before its append an incarnation has no request under way, behind it it was acknowledged. */
  ghost predicate PhaseAcked(w: World, p: Phase) {
    match p
    case Settling(id) => id in w.decided && id !in w.appends && id !in w.replies
    case Durable(id) => Acked(w, id)
    case Applied(_, _, id) => Acked(w, id)
    case Offering(_, _, id) => Acked(w, id)
    case _ => true
  }

  ghost predicate AckInv(w: World) {
    && LedgerOk(w)
    && (forall i | i in w.phases :: PhaseAcked(w, w.phases[i]))
    && (forall k | 0 <= k < |w.started| :: Acked(w, w.started[k].id))
  }

  ghost predicate Inv(a: Actor, w: World) {
    && StreamInv(a, w)
    && RequestInv(a, w)
    && SnapshotInv(a, w)
    && StartedInv(a, w)
    && PhasesInv(a, w)
    && OnceInv(w)
    && AckInv(w)
  }

  // ----- growth

  lemma FlatSnoc(history: seq<Decision>, d: Decision)
    ensures Flat(history + [d]) == Flat(history) + d.effect.events
  {
    assert (history + [d])[..|history|] == history;
  }

  lemma GoodGrows(a: Actor, events: seq<Event>, more: seq<Event>, state: State, next: nat)
    requires Good(a, events, state, next)
    ensures Good(a, events + more, state, next)
  {
    assert (events + more)[..next] == events[..next];
  }

  lemma LandedGrows(events: seq<Event>, more: seq<Event>, d: Decision)
    requires Landed(events, d)
    ensures Landed(events + more, d)
  {
    assert (events + more)[d.at..d.at + |d.effect.events|] == events[d.at..d.at + |d.effect.events|];
  }

  /** What a later world keeps of an earlier one. */
  ghost predicate Grows(w: World, w': World, more: seq<Event>) {
    && Flat(w'.history) == Flat(w.history) + more
    && w.decided.Keys <= w'.decided.Keys
    && (forall id | id in w.decided :: w'.decided[id] == w.decided[id])
    && w.started <= w'.started
  }

  lemma PhaseGrows(a: Actor, w: World, w': World, more: seq<Event>, p: Phase)
    requires Grows(w, w', more) && PhaseInv(a, w, p)
    ensures PhaseInv(a, w', p)
  {
    var events := Flat(w.history);
    if p.Replaying? || p.Replayed? || p.Running? || p.Applied? || p.Offering? {
      GoodGrows(a, events, more, p.state, p.next);
    }
    if p.Durable? || p.Applied? || p.Offering? {
      LandedGrows(events, more, w.decided[p.id]);
    }
  }

  lemma StartedGrows(a: Actor, w: World, w': World, more: seq<Event>)
    requires Grows(w, w', more) && StartedInv(a, w) && w'.started == w.started
    ensures StartedInv(a, w')
  {
    forall k | 0 <= k < |w.started|
      ensures Good(a, Flat(w'.history), w.started[k].state, w.started[k].next)
      ensures SettledAt(w', w.started[k].id, w.started[k].next)
    {
      GoodGrows(a, Flat(w.history), more, w.started[k].state, w.started[k].next);
      LandedGrows(Flat(w.history), more, w.decided[w.started[k].id]);
    }
  }

  lemma SnapshotGrows(a: Actor, events: seq<Event>, more: seq<Event>, s: StoredSnapshot)
    requires SnapshotGood(a, events, s)
    ensures SnapshotGood(a, events + more, s)
  {
    var decoded := DecodeVersioned(a.snapshots, s.snapshot);
    if decoded.Ok? {
      GoodGrows(a, events, more, a.initFromSnapshot(decoded.value), s.nextSeqNo);
    }
  }

  lemma SnapshotsGrow(a: Actor, w: World, w': World, more: seq<Event>)
    requires SnapshotInv(a, w) && Flat(w'.history) == Flat(w.history) + more
    requires w'.slot == w.slot && w'.saves == w.saves
    ensures SnapshotInv(a, w')
  {
    forall s | SnapshotGood(a, Flat(w.history), s) ensures SnapshotGood(a, Flat(w'.history), s) {
      SnapshotGrows(a, Flat(w.history), more, s);
    }
  }

  /** Behind a good state the next events lead to a good state. */
  lemma GoodAdvances(a: Actor, events: seq<Event>, state: State, next: nat, batch: seq<Event>)
    requires Lawful(a) && Good(a, events, state, next)
    requires next + |batch| <= |events| && events[next..next + |batch|] == batch
    ensures Good(a, events, ApplyEvents(a, state, batch), next + |batch|)
  {
    assert events[..next + |batch|] == events[..next] + batch;
    ApplyConcat(a, a.init, events[..next], batch);
    ApplyRespectsView(a, state, Fold(a, events[..next]), batch);
  }

  lemma InitIsGood(a: Actor, events: seq<Event>)
    ensures Good(a, events, a.init, 0)
  {
    assert events[..0] == [];
  }

  // ----- one step: replay

  lemma StoredSlice(
      a: Actor, stream: seq<StoredEvent>, events: seq<Event>, from: nat, to: nat)
    requires StoredAt(a, 0, stream, events) && from <= to <= |stream|
    ensures StoredAt(a, from, stream[from..to], events[from..to])
  {
  }

  /** A page read at a good position never has a gap and leads to a good position. */
  lemma PageKeepsGood(a: Actor, stream: seq<StoredEvent>, events: seq<Event>, state: State, next: SeqNo)
    requires Lawful(a) && |stream| <= STREAM_LIMIT && StoredAt(a, 0, stream, events)
    requires Good(a, events, state, next)
    ensures var page := Read(stream, next, REPLAY_PAGE);
      var r := ReplayPage(a, state, next, page);
      r.Ok? && r.value.1 == next + |page| && Good(a, events, r.value.0, r.value.1)
  {
    var page := Read(stream, next, REPLAY_PAGE);
    var end := next + |page|;
    assert page == stream[next..end];
    StoredSlice(a, stream, events, next, end);
    ReplayPageApplies(a, state, next, page, events[next..end]);
    GoodAdvances(a, events, state, next, events[next..end]);
  }

  // ----- one step: the store executes an append

  /** Rows written behind a gapless stream continue it. */
  lemma RowsContinue(
      a: Actor, stream: seq<StoredEvent>, before: seq<Event>, rows: seq<Encoded>, events: seq<Event>)
    requires StoredAt(a, 0, stream, before) && Decodes(a, rows, events) && |stream| + |rows| <= STREAM_LIMIT
    ensures StoredAt(a, 0, stream + Rows(|stream|, rows), before + events)
  {
  }

  lemma AppendLands(a: Actor, w: World, request: nat)
    requires StreamInv(a, w) && RequestInv(a, w) && request in w.appends && request in w.decided
    requires ConditionalAppend(w.stream, w.decided[request].at, w.appends[request]).Appended?
    ensures var (w', d) := (Executed(w, request), w.decided[request]);
      StreamInv(a, w') && Grows(w, w', d.effect.events) && Landed(Flat(w'.history), d)
  {
    var w' := Executed(w, request);
    var d := w.decided[request];
    FlatSnoc(w.history, d);
    assert w'.history[..|w.history|] == w.history;
    RowsContinue(a, w.stream, Flat(w.history), w.appends[request], d.effect.events);
    assert Justified(a, Flat(w.history), d);
  }

  lemma RequestsGrow(a: Actor, w: World, w': World, more: seq<Event>)
    requires RequestInv(a, w) && Flat(w'.history) == Flat(w.history) + more && w'.decided == w.decided
    ensures forall id | id in w.decided :: Justified(a, Flat(w'.history), w.decided[id])
    ensures forall id | id in w.replies && w.replies[id] :: Landed(Flat(w'.history), w.decided[id])
  {
    var events := Flat(w.history);
    forall id | id in w.decided ensures Justified(a, events + more, w.decided[id]) {
      GoodGrows(a, events, more, w.decided[id].state, w.decided[id].at);
    }
    forall id | id in w.replies && w.replies[id] ensures Landed(events + more, w.decided[id]) {
      LandedGrows(events, more, w.decided[id]);
    }
  }

  lemma AppendKeepsRequests(a: Actor, w: World, request: nat)
    requires StreamInv(a, w) && RequestInv(a, w) && request in w.appends && request in w.decided
    ensures RequestInv(a, Executed(w, request))
  {
    var w' := Executed(w, request);
    if ConditionalAppend(w.stream, w.decided[request].at, w.appends[request]).Appended? {
      AppendLands(a, w, request);
      RequestsGrow(a, w, w', w.decided[request].effect.events);
    }
  }

  lemma AppendKeepsRest(a: Actor, w: World, request: nat)
    requires StreamInv(a, w) && RequestInv(a, w) && SnapshotInv(a, w) && StartedInv(a, w) && PhasesInv(a, w)
    requires request in w.appends && request in w.decided
    ensures var w' := Executed(w, request);
      && StreamInv(a, w') && SnapshotInv(a, w') && StartedInv(a, w')
      && forall j | j in w'.phases :: PhaseInv(a, w', w'.phases[j])
  {
    var w' := Executed(w, request);
    var more := [];
    if ConditionalAppend(w.stream, w.decided[request].at, w.appends[request]).Appended? {
      AppendLands(a, w, request);
      more := w.decided[request].effect.events;
    } else {
      assert Flat(w'.history) == Flat(w.history) + more;
    }
    StartedGrows(a, w, w', more);
    SnapshotsGrow(a, w, w', more);
    forall j | j in w'.phases ensures PhaseInv(a, w', w'.phases[j]) {
      PhaseGrows(a, w, w', more, w.phases[j]);
    }
  }

  // ----- one step: everything else

  lemma QuietGrows(a: Actor, w: World, act: Action)
    requires Enabled(a, w, act) && !act.ExecuteAppend?
    ensures Grows(w, Next(a, w, act), [])
    ensures Next(a, w, act).stream == w.stream && Next(a, w, act).history == w.history
  {
  }

  lemma HandleKeepsRequests(a: Actor, w: World, act: Action)
    requires RequestInv(a, w) && PhasesInv(a, w) && Enabled(a, w, act) && act.Handle?
    ensures RequestInv(a, Next(a, w, act))
  {
    assert PhaseInv(a, w, w.phases[act.i]);
  }

  lemma SubmitKeepsRequests(a: Actor, w: World, act: Action)
    requires Lawful(a) && RequestInv(a, w) && Enabled(a, w, act) && act.SubmitAppend?
    ensures RequestInv(a, Next(a, w, act))
  {
    EncodedEventsDecode(a, w.decided[w.phases[act.i].id].effect.events);
  }

  lemma QuietRequests(a: Actor, w: World, act: Action)
    requires Lawful(a) && RequestInv(a, w) && PhasesInv(a, w) && Enabled(a, w, act) && !act.ExecuteAppend?
    ensures RequestInv(a, Next(a, w, act))
  {
    if act.SubmitAppend? {
      SubmitKeepsRequests(a, w, act);
    } else if act.Handle? {
      HandleKeepsRequests(a, w, act);
    } else {
      var w' := Next(a, w, act);
      assert w'.history == w.history && w'.decided == w.decided && w'.appends == w.appends && w'.replies == w.replies;
    }
  }

  lemma OfferedIsGood(a: Actor, events: seq<Event>, state: State, next: SeqNo, snapshot: Snapshot)
    requires Lawful(a) && Good(a, events, state, next) && a.offers(state, snapshot)
    requires Encode(a.snapshots, snapshot).Some?
    ensures SnapshotGood(a, events, StoredSnapshot(next, Encode(a.snapshots, snapshot).value))
  {
    EncodeDecode(a.snapshots, snapshot);
  }

  lemma QuietSnapshots(a: Actor, w: World, act: Action)
    requires Lawful(a) && SnapshotInv(a, w) && PhasesInv(a, w) && Enabled(a, w, act) && !act.ExecuteAppend?
    ensures SnapshotInv(a, Next(a, w, act))
  {
    if act.OfferSnapshot? {
      var p := w.phases[act.i];
      assert PhaseInv(a, w, p);
      OfferedIsGood(a, Flat(w.history), p.state, p.next, act.snapshot);
    } else {
      assert Next(a, w, act).history == w.history && Next(a, w, act).saves <= w.saves;
    }
  }

  lemma QuietStarted(a: Actor, w: World, act: Action)
    requires StartedInv(a, w) && PhasesInv(a, w) && Enabled(a, w, act) && !act.ExecuteAppend?
    ensures StartedInv(a, Next(a, w, act))
  {
    QuietGrows(a, w, act);
    if act.RunThens? {
      assert PhaseInv(a, w, w.phases[act.i]);
    } else {
      StartedGrows(a, w, Next(a, w, act), []);
    }
  }

  predicate Recovering(act: Action) {
    act.LoadSnapshot? || act.LoadDiscarding? || act.ReadPage? || act.Reconcile?
  }

  lemma RecoveringPhase(a: Actor, w: World, act: Action)
    requires Lawful(a) && StreamInv(a, w) && SnapshotInv(a, w) && PhasesInv(a, w)
    requires Recovering(act) && Enabled(a, w, act)
    ensures var w' := Next(a, w, act); PhaseInv(a, w', w'.phases[act.i])
  {
    assert PhaseInv(a, w, w.phases[act.i]);
    InitIsGood(a, Flat(w.history));
    if act.ReadPage? {
      PageKeepsGood(a, w.stream, Flat(w.history), w.phases[act.i].state, w.phases[act.i].next);
    }
  }

  lemma ApplyPhase(a: Actor, w: World, i: nat)
    requires Lawful(a) && StreamInv(a, w) && RequestInv(a, w) && PhasesInv(a, w) && Enabled(a, w, Apply(i))
    ensures PhaseInv(a, Next(a, w, Apply(i)), Next(a, w, Apply(i)).phases[i])
  {
    assert PhaseInv(a, w, w.phases[i]);
    var d := w.decided[w.phases[i].id];
    GoodAdvances(a, Flat(w.history), d.state, d.at, d.effect.events);
  }

  lemma SettlingPhase(a: Actor, w: World, act: Action)
    requires RequestInv(a, w) && PhasesInv(a, w) && !Recovering(act) && !act.Apply?
    requires Enabled(a, w, act) && !act.ExecuteAppend? && !act.ExecuteSave? && !act.SpoilSnapshot?
    ensures var w' := Next(a, w, act); PhaseInv(a, w', w'.phases[act.i])
  {
    var w' := Next(a, w, act);
    QuietGrows(a, w, act);
    if act.i in w.phases {
      PhaseGrows(a, w, w', [], w.phases[act.i]);
    }
  }

  lemma QuietPhases(a: Actor, w: World, act: Action)
    requires Lawful(a) && StreamInv(a, w) && SnapshotInv(a, w) && RequestInv(a, w) && PhasesInv(a, w)
    requires Enabled(a, w, act) && !act.ExecuteAppend?
    ensures PhasesInv(a, Next(a, w, act))
  {
    var w' := Next(a, w, act);
    QuietGrows(a, w, act);
    forall j | j in w'.phases ensures PhaseInv(a, w', w'.phases[j]) {
      if j in w.phases && w'.phases[j] == w.phases[j] {
        PhaseGrows(a, w, w', [], w.phases[j]);
      } else if Recovering(act) {
        RecoveringPhase(a, w, act);
      } else if act.Apply? {
        ApplyPhase(a, w, act.i);
      } else {
        SettlingPhase(a, w, act);
      }
    }
  }

  // ----- one step: continuations

  /** Only handling a command gives an incarnation something to continue. */
  lemma HoldingKept(a: Actor, w: World, act: Action, j: nat)
    requires Enabled(a, w, act) && !act.Handle? && j in Next(a, w, act).phases
    ensures var p' := Next(a, w, act).phases[j];
      Holding(p').Some? ==> j in w.phases && Holding(w.phases[j]) == Holding(p')
    ensures act.RunThens? && act.i == j ==> Holding(Next(a, w, act).phases[j]).None?
  {
  }

  lemma OnceHandled(a: Actor, w: World, act: Action)
    requires OnceInv(w) && Enabled(a, w, act) && act.Handle?
    ensures OnceInv(Next(a, w, act))
  {
    assert StartedIds(Next(a, w, act)) == StartedIds(w);
  }

  /** Whoever starts nothing keeps at most what it held. */
  lemma OnceKept(w: World, w': World)
    requires OnceInv(w) && w'.started == w.started && w'.decided == w.decided
    requires forall j | j in w'.phases && Holding(w'.phases[j]).Some? ::
               j in w.phases && Holding(w.phases[j]) == Holding(w'.phases[j])
    ensures OnceInv(w')
  {
    assert StartedIds(w') == StartedIds(w);
  }

  lemma OncePreserved(a: Actor, w: World, act: Action)
    requires OnceInv(w) && Enabled(a, w, act)
    ensures OnceInv(Next(a, w, act))
  {
    var w' := Next(a, w, act);
    if act.Handle? {
      OnceHandled(a, w, act);
    } else {
      forall j | j in w'.phases
        ensures Holding(w'.phases[j]).Some? ==> j in w.phases && Holding(w.phases[j]) == Holding(w'.phases[j])
        ensures act.RunThens? && act.i == j ==> Holding(w'.phases[j]).None?
      {
        HoldingKept(a, w, act, j);
      }
      if act.RunThens? {
        OnceStarted(w, w', act.i);
      } else {
        OnceKept(w, w');
      }
    }
  }

  lemma OnceStarted(w: World, w': World, i: nat)
    requires OnceInv(w) && i in w.phases && Holding(w.phases[i]).Some? && w'.decided == w.decided
    requires |w'.started| == |w.started| + 1 && w'.started[..|w.started|] == w.started
    requires w'.started[|w.started|].id == Holding(w.phases[i]).value
    requires forall j | j in w'.phases && Holding(w'.phases[j]).Some? ::
               j in w.phases && j != i && Holding(w.phases[j]) == Holding(w'.phases[j])
    ensures OnceInv(w')
  {
    var id := Holding(w.phases[i]).value;
    forall k | 0 <= k < |w.started| ensures w'.started[k] == w.started[k] && w.started[k].id != id {
      assert w.started[k].id in StartedIds(w);
    }
    assert StartedIds(w') == StartedIds(w) + {id};
  }

  // ----- one step: acknowledgements

  /** No request is executed twice and no reply is taken back. */
  lemma LedgerExecuted(w: World, request: nat)
    requires LedgerOk(w) && request in w.appends && request in w.decided
    ensures LedgerOk(Executed(w, request))
  {
    var w' := Executed(w, request);
    forall id | InHistory(w, id) ensures InHistory(w', id) {
      var k :| 0 <= k < |w.history| && w.history[k].id == id;
      assert w'.history[k] == w.history[k];
    }
    if w'.history != w.history {
      assert w'.history[|w.history|] == w.decided[request];
      assert InHistory(w', request);
    }
  }

  /** What a step other than an executed append leaves of the ledger. */
  lemma LedgerFrame(a: Actor, w: World, act: Action)
    requires Enabled(a, w, act) && !act.ExecuteAppend?
    ensures var w' := Next(a, w, act);
      && w'.stream == w.stream && w'.replies == w.replies && w'.history == w.history
      && (forall id | id in w.decided :: id in w'.decided && w'.decided[id] == w.decided[id])
      && (!act.SubmitAppend? ==> w'.appends == w.appends)
      && (!act.Handle? ==> w'.decided == w.decided)
      && (act.Handle? ==> w'.decided.Keys == w.decided.Keys + {act.newId} && w'.decided[act.newId].id == act.newId)
      && (act.SubmitAppend? ==> w'.appends.Keys == w.appends.Keys + {w.phases[act.i].id})
  {
  }

  lemma LedgerKept(a: Actor, w: World, act: Action)
    requires AckInv(w) && Enabled(a, w, act) && !act.ExecuteAppend?
    ensures LedgerOk(Next(a, w, act))
  {
    var w' := Next(a, w, act);
    LedgerFrame(a, w, act);
    forall id | InHistory(w, id) ensures InHistory(w', id) { }
    if act.SubmitAppend? {
      assert PhaseAcked(w, w.phases[act.i]);
    }
  }

  lemma AckedKept(a: Actor, w: World, act: Action, id: nat)
    requires LedgerOk(w) && Enabled(a, w, act) && Acked(w, id)
    ensures Acked(Next(a, w, act), id)
  {
  }

  /** A decision whose append is still to come stays so, unless it is submitted now. */
  lemma SettlingKept(a: Actor, w: World, act: Action, id: nat)
    requires LedgerOk(w) && Enabled(a, w, act) && PhaseAcked(w, Settling(id))
    requires act.SubmitAppend? ==> w.phases[act.i].id != id
    ensures PhaseAcked(Next(a, w, act), Settling(id))
  {
  }

  lemma OtherPhaseAcked(a: Actor, w: World, act: Action, j: nat)
    requires LedgerOk(w) && OnceInv(w) && Enabled(a, w, act) && j in w.phases && PhaseAcked(w, w.phases[j])
    requires act.SubmitAppend? ==> act.i != j
    ensures PhaseAcked(Next(a, w, act), w.phases[j])
  {
    var p := w.phases[j];
    if p.Settling? {
      if act.SubmitAppend? {
        assert Holding(p) != Holding(w.phases[act.i]);
      }
      SettlingKept(a, w, act, p.id);
    } else if p.Durable? || p.Applied? || p.Offering? {
      AckedKept(a, w, act, p.id);
    }
  }

  predicate Concerns(act: Action, j: nat) {
    !act.ExecuteAppend? && !act.ExecuteSave? && !act.SpoilSnapshot? && act.i == j
  }

  lemma OwnPhaseAcked(a: Actor, w: World, act: Action, j: nat)
    requires LedgerOk(w) && Enabled(a, w, act) && Concerns(act, j)
    requires j in w.phases ==> PhaseAcked(w, w.phases[j])
    ensures j in Next(a, w, act).phases && PhaseAcked(Next(a, w, act), Next(a, w, act).phases[j])
  {
  }

  lemma OtherPhaseSame(a: Actor, w: World, act: Action, j: nat)
    requires Enabled(a, w, act) && j in Next(a, w, act).phases && !Concerns(act, j)
    ensures j in w.phases && Next(a, w, act).phases[j] == w.phases[j]
  {
  }

  lemma PhaseAckedKept(a: Actor, w: World, act: Action, j: nat)
    requires AckInv(w) && OnceInv(w) && Enabled(a, w, act) && j in Next(a, w, act).phases
    ensures PhaseAcked(Next(a, w, act), Next(a, w, act).phases[j])
  {
    if Concerns(act, j) {
      OwnPhaseAcked(a, w, act, j);
    } else {
      OtherPhaseSame(a, w, act, j);
      OtherPhaseAcked(a, w, act, j);
    }
  }

  lemma AckPreserved(a: Actor, w: World, act: Action)
    requires AckInv(w) && OnceInv(w) && Enabled(a, w, act)
    ensures AckInv(Next(a, w, act))
  {
    var w' := Next(a, w, act);
    if act.ExecuteAppend? {
      LedgerExecuted(w, act.request);
    } else {
      LedgerKept(a, w, act);
    }
    forall j | j in w'.phases ensures PhaseAcked(w', w'.phases[j]) {
      PhaseAckedKept(a, w, act, j);
    }
    forall k | 0 <= k < |w'.started| ensures Acked(w', w'.started[k].id) {
      if k < |w.started| {
        assert w'.started[k] == w.started[k];
      } else {
        assert PhaseAcked(w, w.phases[act.i]);
      }
      AckedKept(a, w, act, w'.started[k].id);
    }
  }

  lemma StepPreservesInv(a: Actor, w: World, act: Action)
    requires Lawful(a) && Inv(a, w) && Enabled(a, w, act)
    ensures Inv(a, Next(a, w, act))
  {
    OncePreserved(a, w, act);
    AckPreserved(a, w, act);
    if act.ExecuteAppend? {
      AppendKeepsRequests(a, w, act.request);
      AppendKeepsRest(a, w, act.request);
    } else {
      QuietGrows(a, w, act);
      QuietRequests(a, w, act);
      QuietSnapshots(a, w, act);
      QuietStarted(a, w, act);
      QuietPhases(a, w, act);
    }
  }

  // ----- whole runs

  lemma {:induction false} RunInv(a: Actor, run: seq<World>, acts: seq<Action>, k: nat)
    requires Lawful(a) && IsRun(a, run, acts) && k < |run|
    ensures Inv(a, run[k])
  {
    if k > 0 {
      RunInv(a, run, acts, k - 1);
      StepPreservesInv(a, run[k - 1], acts[k - 1]);
    }
  }

  /** The stream is append-only and holds, batch by batch, a history one sequential actor could have produced. */
  lemma SerialHistory(a: Actor, run: seq<World>, acts: seq<Action>, k: nat)
    requires Lawful(a) && IsRun(a, run, acts) && k < |run|
    ensures StoredAt(a, 0, run[k].stream, Flat(run[k].history))
    ensures Sequential(a, run[k].history)
    ensures forall l | 0 <= l <= k :: run[l].stream <= run[k].stream && run[l].history <= run[k].history
  {
    RunInv(a, run, acts, k);
    AppendOnly(a, run, acts, k);
  }

  lemma {:induction false} AppendOnly(a: Actor, run: seq<World>, acts: seq<Action>, k: nat)
    requires IsRun(a, run, acts) && k < |run|
    ensures forall l | 0 <= l <= k :: run[l].stream <= run[k].stream && run[l].history <= run[k].history
  {
    if k > 0 {
      AppendOnly(a, run, acts, k - 1);
      if !acts[k - 1].ExecuteAppend? {
        QuietGrows(a, run[k - 1], acts[k - 1]);
      }
      assert run[k - 1].stream <= run[k].stream && run[k - 1].history <= run[k].history;
    }
  }

  /** Two batches never claim one position: of the writers racing for it the stream took at most one. */
  lemma {:induction false} Fenced(a: Actor, history: seq<Decision>, k: nat, l: nat)
    requires Sequential(a, history) && k < l < |history|
    ensures history[k].at + |history[k].effect.events| <= history[l].at
    ensures history[k].effect.events != []
    decreases |history|
  {
    var before := history[..|history| - 1];
    if l < |history| - 1 {
      Fenced(a, before, k, l);
    } else {
      EndsWithin(a, before, k);
    }
  }

  lemma {:induction false} EndsWithin(a: Actor, history: seq<Decision>, k: nat)
    requires Sequential(a, history) && k < |history|
    ensures history[k].at + |history[k].effect.events| <= |Flat(history)|
    ensures history[k].effect.events != []
    decreases |history|
  {
    if k < |history| - 1 {
      EndsWithin(a, history[..|history| - 1], k);
    }
  }

  /** Between commands a running incarnation is at the fold of the stream prefix it has seen. */
  lemma LiveEqualsReplay(a: Actor, run: seq<World>, acts: seq<Action>, k: nat, i: nat)
    requires Lawful(a) && IsRun(a, run, acts) && k < |run|
    requires i in run[k].phases && run[k].phases[i].Running?
    ensures Good(a, Flat(run[k].history), run[k].phases[i].state, run[k].phases[i].next)
  {
    RunInv(a, run, acts, k);
    assert PhaseInv(a, run[k], run[k].phases[i]);
  }

  /** A stored snapshot that decodes is the fold of the prefix it claims to cover. */
  lemma SnapshotAgreesWithReplay(a: Actor, run: seq<World>, acts: seq<Action>, k: nat)
    requires Lawful(a) && IsRun(a, run, acts) && k < |run| && run[k].slot.Some?
    ensures SnapshotGood(a, Flat(run[k].history), run[k].slot.value)
  {
    RunInv(a, run, acts, k);
  }

  /** Replay never meets a gap or an undecodable event, and a restarting reader meets a good position. */
  lemma ReplayNeverFails(a: Actor, run: seq<World>, acts: seq<Action>, k: nat, i: nat)
    requires Lawful(a) && IsRun(a, run, acts) && k < |run|
    requires i in run[k].phases && run[k].phases[i].Replaying?
    ensures var p := AfterPage(a, run[k].stream, run[k].phases[i].state, run[k].phases[i].next);
      && (p.Replaying? || p.Replayed?)
      && Good(a, Flat(run[k].history), p.state, p.next)
  {
    RunInv(a, run, acts, k);
    var p := run[k].phases[i];
    assert PhaseInv(a, run[k], p);
    PageKeepsGood(a, run[k].stream, Flat(run[k].history), p.state, p.next);
  }

  /**
   * Continuations start at most once per decision, only once the store acknowledged its own append,
   * whose whole batch stands in the stream at the position it claimed, and on the fold of the
   * stream through that batch.
   */
  lemma ContinuationsOnceAfterDurability(a: Actor, run: seq<World>, acts: seq<Action>, k: nat, s: nat)
    requires Lawful(a) && IsRun(a, run, acts) && k < |run| && s < |run[k].started|
    ensures forall t | 0 <= t < |run[k].started| && t != s :: run[k].started[t].id != run[k].started[s].id
    ensures SettledAt(run[k], run[k].started[s].id, run[k].started[s].next)
    ensures Good(a, Flat(run[k].history), run[k].started[s].state, run[k].started[s].next)
    ensures Acked(run[k], run[k].started[s].id)
    ensures var d := run[k].decided[run[k].started[s].id];
      d.effect.events != [] ==> exists h :: 0 <= h < |run[k].history| && run[k].history[h] == d
  {
    RunInv(a, run, acts, k);
    var w := run[k];
    var id := w.started[s].id;
    assert Acked(w, id);
    if w.decided[id].effect.events != [] {
      var h :| 0 <= h < |w.history| && w.history[h].id == id;
      assert w.history[h] == w.decided[id];
    }
  }

  /**
   * Of the decisions racing for a position at most one ever starts its continuations, also when the
   * losers decided on equal batches: the batches of two that started do not overlap.
   */
  lemma RaceStartsOneContinuation(a: Actor, run: seq<World>, acts: seq<Action>, k: nat, s: nat, t: nat)
    requires Lawful(a) && IsRun(a, run, acts) && k < |run|
    requires s < |run[k].started| && t < |run[k].started| && s != t
    ensures run[k].started[s].id in run[k].decided && run[k].started[t].id in run[k].decided
    ensures var (d, e) := (run[k].decided[run[k].started[s].id], run[k].decided[run[k].started[t].id]);
      d.effect.events != [] && e.effect.events != [] ==>
        d.at + |d.effect.events| <= e.at || e.at + |e.effect.events| <= d.at
  {
    RunInv(a, run, acts, k);
    ContinuationsOnceAfterDurability(a, run, acts, k, s);
    ContinuationsOnceAfterDurability(a, run, acts, k, t);
    var w := run[k];
    var d, e := w.decided[w.started[s].id], w.decided[w.started[t].id];
    if d.effect.events != [] && e.effect.events != [] {
      var g :| 0 <= g < |w.history| && w.history[g] == d;
      var h :| 0 <= h < |w.history| && w.history[h] == e;
      assert d.id != e.id;
      if g < h {
        Fenced(a, w.history, g, h);
      } else {
        Fenced(a, w.history, h, g);
      }
    }
  }

  /** The step starts the continuations of the decision, and they succeed. */
  ghost predicate Continues(w: World, act: Action, w': World, i: nat, id: nat) {
    && act == RunThens(i, true)
    && |w'.started| == |w.started| + 1 && w'.started[..|w.started|] == w.started
    && w'.started[|w.started|].id == id
  }

  /** Until its continuations succeeded, an incarnation that decided holds on to its decision or fails. */
  lemma {:induction false} HeldUntilContinued(
      a: Actor, run: seq<World>, acts: seq<Action>, k: nat, l: nat, i: nat, id: nat)
    requires IsRun(a, run, acts) && k < l < |run| && acts[k].Handle? && acts[k].i == i && acts[k].newId == id
    requires forall m | k < m < l :: acts[m] != Restart(i)
    requires forall m | k < m < l :: !Continues(run[m], acts[m], run[m + 1], i, id)
    ensures i in run[l].phases
    ensures Holding(run[l].phases[i]) == Some(id) || run[l].phases[i].Failed? || run[l].phases[i].Stopped?
    decreases l
  {
    if k + 1 < l {
      HeldUntilContinued(a, run, acts, k, l - 1, i, id);
      assert !Continues(run[l - 1], acts[l - 1], run[l], i, id);
    }
  }

  /**
   * Between two commands of one incarnation, unless it restarted, the continuations of the first one
   * have run: the next command is taken only behind them.
   */
  lemma SettledBeforeNextCommand(a: Actor, run: seq<World>, acts: seq<Action>, k: nat, l: nat)
    requires IsRun(a, run, acts) && k < l < |acts| && acts[k].Handle? && acts[l].Handle? && acts[k].i == acts[l].i
    requires forall m | k < m < l :: acts[m] != Restart(acts[k].i)
    ensures exists m :: k < m < l && Continues(run[m], acts[m], run[m + 1], acts[k].i, acts[k].newId)
  {
    if !exists m :: k < m < l && Continues(run[m], acts[m], run[m + 1], acts[k].i, acts[k].newId) {
      HeldUntilContinued(a, run, acts, k, l, acts[k].i, acts[k].newId);
    }
  }
}
