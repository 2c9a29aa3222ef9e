/**
 * The snapshot slot over whole runs. The last save wins, whatever its position, so the slot may
 * fall back to an older snapshot; it never does with one writer whose saves are executed while it
 * waits for them, and neither half of that condition can be dropped.
 */
module SnapshotSlot {
  import opened Prelude
  import opened SeqNos
  import opened Versioned
  import opened EventSourced
  import opened Fencing

  /** Only incarnation `i` and the stores act. */
  predicate ByWriter(act: Action, i: nat) {
    Concerns(act, i) || act.ExecuteAppend? || act.ExecuteSave? || act.SpoilSnapshot?
  }

  /** The incarnation has appended events and waits for its snapshot at that position to be saved. */
  ghost predicate WaitsFor(w: World, i: nat, save: StoredSnapshot) {
    && i in w.phases && w.phases[i].Offering? && w.phases[i].next == save.nextSeqNo
    && w.phases[i].id in w.decided && w.decided[w.phases[i].id].effect.events != []
  }

  /** A save is executed only while a writer waits for it, and nothing else touches the slot. */
  ghost predicate Awaited(w: World, act: Action) {
    !act.SpoilSnapshot? && (act.ExecuteSave? ==> exists i :: WaitsFor(w, i, act.save))
  }

  /** Executing the save takes the slot back to an older position. */
  ghost predicate Falls(w: World, save: StoredSnapshot) {
    save in w.saves && w.slot.Some? && save.nextSeqNo < w.slot.value.nextSeqNo
  }

  // ----- no snapshot is ahead of the stream

  ghost predicate Within(w: World) {
    && (w.slot.Some? ==> w.slot.value.nextSeqNo <= |w.stream|)
    && (forall s | s in w.saves :: s.nextSeqNo <= |w.stream|)
  }

  /** Only executing a save touches the slot, only offering one adds to the saves, and the stream grows. */
  lemma SlotFrame(a: Actor, w: World, act: Action)
    requires Enabled(a, w, act) && !act.SpoilSnapshot?
    ensures !act.ExecuteSave? ==> Next(a, w, act).slot == w.slot
    ensures !act.OfferSnapshot? ==> Next(a, w, act).saves <= w.saves
    ensures |w.stream| <= |Next(a, w, act).stream|
  {
  }

  lemma StepWithin(a: Actor, w: World, act: Action)
    requires StreamInv(a, w) && PhasesInv(a, w) && Within(w) && Enabled(a, w, act) && !act.SpoilSnapshot?
    ensures Within(Next(a, w, act))
  {
    SlotFrame(a, w, act);
    if act.OfferSnapshot? {
      assert PhaseInv(a, w, w.phases[act.i]);
    }
  }

  lemma {:induction false} RunWithin(a: Actor, run: seq<World>, acts: seq<Action>, k: nat)
    requires Lawful(a) && IsRun(a, run, acts) && k < |run|
    requires forall m | 0 <= m < k :: !acts[m].SpoilSnapshot?
    ensures Within(run[k])
  {
    if k > 0 {
      RunWithin(a, run, acts, k - 1);
      RunInv(a, run, acts, k - 1);
      StepWithin(a, run[k - 1], acts[k - 1]);
    }
  }

  // ----- one writer

  /** The decision whose append is submitted and whose effect is not settled. */
  function Submitted(p: Phase): Option<nat> {
    match p
    case Appending(id) => Some(id)
    case Durable(id) => Some(id)
    case Applied(_, _, id) => Some(id)
    case Offering(_, _, id) => Some(id)
    case _ => None
  }

  /** Once the only writer's append is acknowledged, the stream ends with it and stays so. */
  ghost predicate AtEnd(w: World, id: nat) {
    id in w.decided && id in w.replies && w.replies[id] ==>
      && |w.stream| == w.decided[id].at + |w.decided[id].effect.events|
      && forall r | r in w.appends && r in w.decided :: w.decided[r].at < |w.stream|
  }

  ghost predicate Alone(w: World, i: nat) {
    && w.phases.Keys <= {i}
    && (i in w.phases && Submitted(w.phases[i]).Some? ==> AtEnd(w, Submitted(w.phases[i]).value))
  }

  /** No request in flight is ahead of the stream, and each brings something. */
  ghost predicate RequestsBehind(w: World) {
    forall r | r in w.appends ::
      && r in w.decided && w.decided[r].at <= |w.stream|
      && |w.appends[r]| == |w.decided[r].effect.events| > 0
  }

  lemma RequestsAreBehind(a: Actor, w: World)
    requires StreamInv(a, w) && RequestInv(a, w)
    ensures RequestsBehind(w)
  {
    forall r | r in w.appends ensures w.decided[r].at <= |w.stream| {
      assert Justified(a, Flat(w.history), w.decided[r]);
    }
  }

  /** The store executes a request: the only one that can extend the stream becomes its end. */
  lemma ExecuteAlone(w: World, request: nat, i: nat)
    requires RequestsBehind(w) && LedgerOk(w) && Alone(w, i) && request in w.appends && request in w.decided
    ensures Alone(Executed(w, request), i)
  {
  }

  /** A writer gets behind its append only by submitting it, or with nothing to append. */
  lemma SubmittedFrame(a: Actor, w: World, act: Action, i: nat)
    requires Enabled(a, w, act) && Concerns(act, i)
    ensures var w' := Next(a, w, act);
      && w'.phases.Keys == w.phases.Keys + {i}
      && (Submitted(w'.phases[i]).Some? && !act.SubmitAppend? && !act.SkipAppend? ==>
            i in w.phases && Submitted(w.phases[i]) == Submitted(w'.phases[i]))
      && (act.SubmitAppend? || act.SkipAppend? ==> Submitted(w'.phases[i]) == Some(w.phases[i].id))
  {
  }

  lemma QuietAlone(a: Actor, w: World, act: Action, i: nat)
    requires Alone(w, i) && LedgerOk(w) && Enabled(a, w, act) && ByWriter(act, i) && !act.ExecuteAppend?
    requires i in w.phases ==> PhaseAcked(w, w.phases[i])
    ensures Alone(Next(a, w, act), i)
  {
    LedgerFrame(a, w, act);
    if Concerns(act, i) {
      SubmittedFrame(a, w, act, i);
    } else {
      assert Next(a, w, act).phases == w.phases;
    }
  }

  lemma StepAlone(a: Actor, w: World, act: Action, i: nat)
    requires Inv(a, w) && Alone(w, i) && Enabled(a, w, act) && ByWriter(act, i)
    ensures Alone(Next(a, w, act), i)
  {
    if act.ExecuteAppend? {
      RequestsAreBehind(a, w);
      ExecuteAlone(w, act.request, i);
    } else {
      QuietAlone(a, w, act, i);
    }
  }

  lemma {:induction false} RunAlone(a: Actor, run: seq<World>, acts: seq<Action>, i: nat, k: nat)
    requires Lawful(a) && IsRun(a, run, acts) && k < |run|
    requires forall m | 0 <= m < k :: ByWriter(acts[m], i)
    ensures Alone(run[k], i)
  {
    if k > 0 {
      RunAlone(a, run, acts, i, k - 1);
      RunInv(a, run, acts, k - 1);
      StepAlone(a, run[k - 1], acts[k - 1], i);
    }
  }

  /** What the only writer waits for is saved at the very end of the stream. */
  lemma AwaitedIsAtEnd(a: Actor, w: World, i: nat, save: StoredSnapshot)
    requires Inv(a, w) && Alone(w, i) && (exists j :: WaitsFor(w, j, save))
    ensures save.nextSeqNo == |w.stream|
  {
    var j :| WaitsFor(w, j, save);
    assert PhaseInv(a, w, w.phases[i]) && PhaseAcked(w, w.phases[i]);
  }

  lemma SlotRises(a: Actor, w: World, act: Action, i: nat)
    requires Inv(a, w) && Alone(w, i) && Within(w) && Enabled(a, w, act) && Awaited(w, act) && w.slot.Some?
    ensures var w' := Next(a, w, act); w'.slot.Some? && w.slot.value.nextSeqNo <= w'.slot.value.nextSeqNo
  {
    SlotFrame(a, w, act);
    if act.ExecuteSave? {
      AwaitedIsAtEnd(a, w, i, act.save);
    }
  }

  lemma RunRises(a: Actor, run: seq<World>, acts: seq<Action>, i: nat, m: nat)
    requires Lawful(a) && IsRun(a, run, acts) && m < |acts| && run[m].slot.Some?
    requires forall n | 0 <= n <= m :: ByWriter(acts[n], i) && Awaited(run[n], acts[n])
    ensures run[m + 1].slot.Some? && run[m].slot.value.nextSeqNo <= run[m + 1].slot.value.nextSeqNo
  {
    RunInv(a, run, acts, m);
    RunAlone(a, run, acts, i, m);
    RunWithin(a, run, acts, m);
    SlotRises(a, run[m], acts[m], i);
  }

  /** With one writer whose saves are executed while it waits, the slot's position never falls. */
  lemma {:induction false} SlotNeverFalls(
      a: Actor, run: seq<World>, acts: seq<Action>, i: nat, k: nat, l: nat)
    requires Lawful(a) && IsRun(a, run, acts) && k <= l < |run| && run[k].slot.Some?
    requires forall m | 0 <= m < l :: ByWriter(acts[m], i) && Awaited(run[m], acts[m])
    ensures run[l].slot.Some? && run[k].slot.value.nextSeqNo <= run[l].slot.value.nextSeqNo
    decreases l
  {
    if k < l {
      SlotNeverFalls(a, run, acts, i, k, l - 1);
      RunRises(a, run, acts, i, l - 1);
    }
  }

  // ----- the order of the saves decides

  /** What the slot holds is the save executed last. */
  lemma {:induction false} SlotIsLastSave(a: Actor, run: seq<World>, acts: seq<Action>, k: nat) returns (m: nat)
    requires IsRun(a, run, acts) && k < |run| && run[k].slot.Some?
    requires forall n | 0 <= n < |acts| :: !acts[n].SpoilSnapshot?
    ensures m < k && acts[m] == ExecuteSave(run[k].slot.value)
    ensures forall n | m < n < k :: !acts[n].ExecuteSave?
  {
    if k > 0 {
      if acts[k - 1].ExecuteSave? {
        m := k - 1;
      } else {
        SlotFrame(a, run[k - 1], acts[k - 1]);
        m := SlotIsLastSave(a, run, acts, k - 1);
      }
    }
  }

  ghost predicate NeverFalls(run: seq<World>) {
    forall k, l | 0 <= k < l < |run| && run[k].slot.Some? ::
      run[l].slot.Some? && run[k].slot.value.nextSeqNo <= run[l].slot.value.nextSeqNo
  }

  /** The store executes saves in the order of their positions. */
  ghost predicate InOrder(acts: seq<Action>) {
    forall k, l | 0 <= k < l < |acts| && acts[k].ExecuteSave? && acts[l].ExecuteSave? ::
      acts[k].save.nextSeqNo <= acts[l].save.nextSeqNo
  }

  lemma {:induction false} SlotStays(a: Actor, run: seq<World>, acts: seq<Action>, k: nat, l: nat)
    requires IsRun(a, run, acts) && k <= l < |run| && run[k].slot.Some?
    requires forall n | 0 <= n < |acts| :: !acts[n].SpoilSnapshot?
    ensures run[l].slot.Some?
    decreases l
  {
    if k < l {
      SlotStays(a, run, acts, k, l - 1);
      SlotFrame(a, run[l - 1], acts[l - 1]);
    }
  }

  /** Over any run the slot's position never falls if and only if the saves are executed in order. */
  lemma SlotFollowsOrder(a: Actor, run: seq<World>, acts: seq<Action>)
    requires IsRun(a, run, acts) && forall n | 0 <= n < |acts| :: !acts[n].SpoilSnapshot?
    ensures NeverFalls(run) <==> InOrder(acts)
  {
    if NeverFalls(run) {
      forall k, l | 0 <= k < l < |acts| && acts[k].ExecuteSave? && acts[l].ExecuteSave?
        ensures acts[k].save.nextSeqNo <= acts[l].save.nextSeqNo
      {
        assert run[k + 1].slot == Some(acts[k].save) && run[l + 1].slot == Some(acts[l].save);
      }
    }
    if InOrder(acts) {
      forall k, l | 0 <= k < l < |run| && run[k].slot.Some?
        ensures run[l].slot.Some? && run[k].slot.value.nextSeqNo <= run[l].slot.value.nextSeqNo
      {
        SlotStays(a, run, acts, k, l);
        var m := SlotIsLastSave(a, run, acts, k);
        var n := SlotIsLastSave(a, run, acts, l);
        assert m <= n;
      }
    }
  }

  // ----- neither half of the condition can be dropped

  datatype Policy = AwaitedSaves | OneWriter(i: nat)

  ghost predicate Meets(policy: Policy, w: World, act: Action) {
    match policy
    case AwaitedSaves => Awaited(w, act)
    case OneWriter(i) => ByWriter(act, i) && !act.SpoilSnapshot?
  }

  /** A run whose every step meets the policy leads to the world. */
  ghost predicate Reaches(a: Actor, policy: Policy, w: World) {
    exists run: seq<World>, acts: seq<Action> ::
      IsRun(a, run, acts) && run[|acts|] == w && forall m | 0 <= m < |acts| :: Meets(policy, run[m], acts[m])
  }

  lemma StartReached(a: Actor, policy: Policy)
    ensures Reaches(a, policy, START)
  {
    assert IsRun(a, [START], []);
  }

  lemma Extend(a: Actor, policy: Policy, w: World, act: Action)
    requires Reaches(a, policy, w) && Enabled(a, w, act) && Meets(policy, w, act)
    ensures Reaches(a, policy, Next(a, w, act))
  {
    var run: seq<World>, acts: seq<Action> :|
      IsRun(a, run, acts) && run[|acts|] == w && forall m | 0 <= m < |acts| :: Meets(policy, run[m], acts[m]);
    var run', acts' := run + [Next(a, w, act)], acts + [act];
    assert IsRun(a, run', acts');
    assert run'[|acts'|] == Next(a, w, act);
  }

  /** An actor with one event and one snapshot, which answers any command with any effect. */
  ghost function Sample(state: State, event: Event, snapshot: Snapshot, view: View, payload: Payload): Actor {
    Actor(
      state,
      (s: State, e: Event) => s,
      (n: Snapshot) => state,
      (s: State, n: Snapshot) => n == snapshot,
      (s: State, t: State) => t == s,
      (c: Command, s: State, effect: Effect) => true,
      (s: State) => view,
      Schema("event", 0, (e: Event) => if e == event then Some(payload) else None, (v: nat, p: Payload) => Ok(event)),
      Schema("snapshot", 0, (n: Snapshot) => if n == snapshot then Some(payload) else None,
             (v: nat, p: Payload) => Ok(snapshot)))
  }

  /** What the sample stores for its event, and for its snapshot at a position. */
  function Row(payload: Payload): Encoded {
    Encoded("event", 0, payload)
  }

  function Saved(payload: Payload, next: SeqNo): StoredSnapshot {
    StoredSnapshot(next, Encoded("snapshot", 0, payload))
  }

  datatype Parts = Parts(event: Event, snapshot: Snapshot, payload: Payload)

  /** What the runs below use of the sample. */
  ghost predicate IsSample(a: Actor, x: Parts) {
    && ApplyEvents(a, a.init, [x.event]) == a.init
    && a.offers(a.init, x.snapshot) && a.recovered(a.init, a.init)
    && (forall c :: a.handle(c, a.init, OneEvent(x)))
    && EncodeEvents(a, [x.event]) == Some([Row(x.payload)])
    && DecodeVersioned(a.events, Row(x.payload)) == Ok(x.event)
    && Encode(a.snapshots, x.snapshot) == Some(Saved(x.payload, 0).snapshot)
  }

  function OneEvent(x: Parts): Effect {
    Effect([x.event], false, [])
  }

  lemma SampleIsSample(state: State, view: View, x: Parts)
    ensures Lawful(Sample(state, x.event, x.snapshot, view, x.payload))
    ensures IsSample(Sample(state, x.event, x.snapshot, view, x.payload), x)
  {
    var a := Sample(state, x.event, x.snapshot, view, x.payload);
    assert Encode(a.events, x.event) == Some(Row(x.payload));
    assert [x.event][1..] == [] && EncodeEvents(a, []) == Some([]);
    assert [Row(x.payload)] + [] == [Row(x.payload)];
    assert ApplyEvents(a, a.init, []) == a.init;
  }

  /** Reading a stream of at most one event ends recovery. */
  lemma OnePage(a: Actor, x: Parts, stream: seq<StoredEvent>)
    requires IsSample(a, x) && (stream == [] || stream == Rows(0, [Row(x.payload)]))
    ensures AfterPage(a, stream, a.init, 0) == Replayed(a.init, |stream|)
  {
    assert Read(stream, 0, REPLAY_PAGE) == stream;
    ReplayPageApplies(a, a.init, 0, stream, if stream == [] then [] else [x.event]);
  }

  /** A new incarnation finds no snapshot. */
  lemma Loads(a: Actor, policy: Policy, w: World, i: nat)
    requires Reaches(a, policy, w) && (policy.OneWriter? ==> policy.i == i)
    requires i !in w.phases && w.slot.None?
    ensures Reaches(a, policy, To(w, i, Replaying(a.init, 0)))
  {
    Extend(a, policy, w, Spawn(i));
    var w1 := To(w, i, Loading);
    Extend(a, policy, w1, LoadSnapshot(i));
    assert To(w1, i, Replaying(a.init, 0)) == To(w, i, Replaying(a.init, 0));
  }

  /** It replays a page that ends recovery. */
  lemma Replays(a: Actor, policy: Policy, w: World, i: nat, next: SeqNo)
    requires Reaches(a, policy, w) && (policy.OneWriter? ==> policy.i == i)
    requires i in w.phases && w.phases[i] == Replaying(a.init, 0) && a.recovered(a.init, a.init)
    requires AfterPage(a, w.stream, a.init, 0) == Replayed(a.init, next)
    ensures Reaches(a, policy, To(w, i, Running(a.init, next)))
  {
    Extend(a, policy, w, ReadPage(i));
    var w1 := To(w, i, Replayed(a.init, next));
    Extend(a, policy, w1, Reconcile(i, a.init));
    assert To(w1, i, Running(a.init, next)) == To(w, i, Running(a.init, next));
  }

  /** Recovery from a stream that fits into one page and leaves the state as it is. */
  lemma Recovers(a: Actor, policy: Policy, w: World, i: nat) returns (w': World)
    requires Reaches(a, policy, w) && (policy.OneWriter? ==> policy.i == i)
    requires i !in w.phases && w.slot.None? && |w.stream| < 2 && a.recovered(a.init, a.init)
    requires AfterPage(a, w.stream, a.init, 0) == Replayed(a.init, |w.stream|)
    ensures Reaches(a, policy, w') && w' == To(w, i, Running(a.init, |w.stream|))
  {
    Loads(a, policy, w, i);
    var w1 := To(w, i, Replaying(a.init, 0));
    Replays(a, policy, w1, i, |w.stream|);
    w' := To(w1, i, Running(a.init, |w.stream|));
    assert w1.phases[i := Running(a.init, |w.stream|)] == w.phases[i := Running(a.init, |w.stream|)];
  }

  /** It handles a command and submits the append. */
  lemma Submits(a: Actor, x: Parts, policy: Policy, w: World, i: nat, id: nat, c: Command) returns (w': World)
    requires IsSample(a, x) && Reaches(a, policy, w) && (policy.OneWriter? ==> policy.i == i)
    requires i in w.phases && |w.stream| < 2 && w.phases[i] == Running(a.init, |w.stream|) && id !in w.decided
    ensures Reaches(a, policy, w')
    ensures w' == To(w, i, Appending(id)).(
                    decided := w.decided[id := Decision(id, c, a.init, OneEvent(x), |w.stream|)],
                    appends := w.appends[id := [Row(x.payload)]])
  {
    Extend(a, policy, w, Handle(i, id, c, OneEvent(x)));
    var w1 := Next(a, w, Handle(i, id, c, OneEvent(x)));
    Extend(a, policy, w1, SubmitAppend(i));
    w' := Next(a, w1, SubmitAppend(i));
  }

  /** The store appends its event. */
  lemma Appends(a: Actor, x: Parts, policy: Policy, w: World, i: nat, id: nat, c: Command) returns (w': World)
    requires IsSample(a, x) && Reaches(a, policy, w) && (policy.OneWriter? ==> policy.i == i)
    requires i in w.phases && |w.stream| < 2 && w.phases[i] == Running(a.init, |w.stream|) && id !in w.decided
    ensures Reaches(a, policy, w')
    ensures w'.stream == w.stream + Rows(|w.stream|, [Row(x.payload)])
    ensures w'.phases == w.phases[i := Appending(id)] && w'.slot == w.slot && w'.saves == w.saves
    ensures w'.decided == w.decided[id := Decision(id, c, a.init, OneEvent(x), |w.stream|)]
    ensures id in w'.replies && w'.replies[id]
  {
    var w1 := Submits(a, x, policy, w, i, id, c);
    Extend(a, policy, w1, ExecuteAppend(id));
    w' := Next(a, w1, ExecuteAppend(id));
  }

  /** It learns that its append succeeded. */
  lemma Learns(a: Actor, policy: Policy, w: World, i: nat, id: nat)
    requires Reaches(a, policy, w) && (policy.OneWriter? ==> policy.i == i)
    requires i in w.phases && w.phases[i] == Appending(id) && id in w.replies && w.replies[id]
    ensures Reaches(a, policy, To(w, i, Durable(id)))
  {
    Extend(a, policy, w, AppendReplied(i));
  }

  /** It learns of the append and applies the event. */
  lemma Applies(a: Actor, x: Parts, policy: Policy, w: World, i: nat, id: nat)
    requires IsSample(a, x) && Reaches(a, policy, w) && (policy.OneWriter? ==> policy.i == i)
    requires i in w.phases && w.phases[i] == Appending(id) && id in w.replies && w.replies[id] && id in w.decided
    requires w.decided[id].state == a.init && w.decided[id].effect == OneEvent(x) && w.decided[id].at < 2
    ensures Reaches(a, policy, To(w, i, Applied(a.init, w.decided[id].at + 1, id)))
  {
    Learns(a, policy, w, i, id);
    var w1 := To(w, i, Durable(id));
    Extend(a, policy, w1, Apply(i));
    assert Next(a, w1, Apply(i)) == To(w, i, Applied(a.init, w.decided[id].at + 1, id));
  }

  /** It runs its continuations. */
  lemma Continued(a: Actor, policy: Policy, w: World, i: nat) returns (w': World)
    requires Reaches(a, policy, w) && (policy.OneWriter? ==> policy.i == i)
    requires i in w.phases && w.phases[i].Applied?
    ensures Reaches(a, policy, w')
    ensures var p := w.phases[i];
      w' == To(w, i, Offering(p.state, p.next, p.id)).(started := w.started + [Start(p.id, p.state, p.next)])
  {
    Extend(a, policy, w, RunThens(i, true));
    w' := Next(a, w, RunThens(i, true));
  }

  /** It offers its snapshot. */
  lemma OffersNow(a: Actor, x: Parts, policy: Policy, w: World, i: nat)
    requires IsSample(a, x) && Reaches(a, policy, w) && (policy.OneWriter? ==> policy.i == i)
    requires i in w.phases && w.phases[i].Offering? && w.phases[i].state == a.init
    requires w.phases[i].id in w.decided && w.decided[w.phases[i].id].effect == OneEvent(x)
    ensures Reaches(a, policy, w.(saves := w.saves + {Saved(x.payload, w.phases[i].next)}))
  {
    Extend(a, policy, w, OfferSnapshot(i, x.snapshot));
  }

  /** From the executed append to the offered snapshot. */
  lemma Offers(a: Actor, x: Parts, policy: Policy, w: World, i: nat, id: nat) returns (w': World)
    requires IsSample(a, x) && Reaches(a, policy, w) && (policy.OneWriter? ==> policy.i == i)
    requires i in w.phases && w.phases[i] == Appending(id) && id in w.replies && w.replies[id] && id in w.decided
    requires w.decided[id].state == a.init && w.decided[id].effect == OneEvent(x) && w.decided[id].at < 2
    ensures Reaches(a, policy, w')
    ensures w'.stream == w.stream && w'.slot == w.slot && w'.decided == w.decided
    ensures w'.phases == w.phases[i := Offering(a.init, w.decided[id].at + 1, id)]
    ensures w'.saves == w.saves + {Saved(x.payload, w.decided[id].at + 1)}
  {
    Applies(a, x, policy, w, i, id);
    var w1 := To(w, i, Applied(a.init, w.decided[id].at + 1, id));
    var w2 := Continued(a, policy, w1, i);
    OffersNow(a, x, policy, w2, i);
    w' := w2.(saves := w2.saves + {Saved(x.payload, w2.phases[i].next)});
  }

  /** Recovery from the empty stream, and the first append. */
  lemma FirstAppend(a: Actor, x: Parts, policy: Policy, c: Command) returns (w: World)
    requires IsSample(a, x) && (policy.OneWriter? ==> policy.i == 0)
    ensures Reaches(a, policy, w) && w.stream == Rows(0, [Row(x.payload)]) && w.slot.None? && w.saves == {}
    ensures w.phases == map[0 := Appending(0)] && 0 in w.replies && w.replies[0]
    ensures w.decided == map[0 := Decision(0, c, a.init, OneEvent(x), 0)]
  {
    StartReached(a, policy);
    OnePage(a, x, START.stream);
    w := Recovers(a, policy, START, 0);
    w := Appends(a, x, policy, w, 0, 0, c);
  }

  /** The first append, up to the offered snapshot. */
  lemma FirstSnapshot(a: Actor, x: Parts, policy: Policy, c: Command) returns (w: World)
    requires IsSample(a, x) && (policy.OneWriter? ==> policy.i == 0)
    ensures Reaches(a, policy, w) && w.stream == Rows(0, [Row(x.payload)]) && w.slot.None?
    ensures w.phases == map[0 := Offering(a.init, 1, 0)] && w.saves == {Saved(x.payload, 1)}
    ensures w.decided == map[0 := Decision(0, c, a.init, OneEvent(x), 0)]
  {
    w := FirstAppend(a, x, policy, c);
    w := Offers(a, x, policy, w, 0, 0);
  }

  /** A second incarnation behind the first one, up to its offered snapshot. */
  lemma SecondSnapshot(a: Actor, x: Parts, w: World, c: Command) returns (w': World)
    requires IsSample(a, x) && Reaches(a, AwaitedSaves, w)
    requires w.stream == Rows(0, [Row(x.payload)]) && w.slot.None? && 1 !in w.phases && 1 !in w.decided
    ensures Reaches(a, AwaitedSaves, w') && w'.slot == w.slot
    ensures w'.phases == w.phases[1 := Offering(a.init, 2, 1)] && w'.saves == w.saves + {Saved(x.payload, 2)}
    ensures w'.decided == w.decided[1 := Decision(1, c, a.init, OneEvent(x), 1)]
  {
    OnePage(a, x, w.stream);
    var w1 := Recovers(a, AwaitedSaves, w, 1);
    var w2 := Appends(a, x, AwaitedSaves, w1, 1, 1, c);
    w' := Offers(a, x, AwaitedSaves, w2, 1, 1);
  }

  /**
   * Two writers: although every save is executed while its writer waits for it, the slot falls from
   * position 2 back to 1 when the slower writer's save comes last.
   */
  lemma TwoWritersFall(state: State, view: View, x: Parts, c: Command)
      returns (a: Actor, w: World, save: StoredSnapshot)
    ensures Lawful(a) && Reaches(a, AwaitedSaves, w)
    ensures Falls(w, save) && Awaited(w, ExecuteSave(save))
  {
    a := Sample(state, x.event, x.snapshot, view, x.payload);
    SampleIsSample(state, view, x);
    w := FirstSnapshot(a, x, AwaitedSaves, c);
    w := SecondSnapshot(a, x, w, c);
    assert WaitsFor(w, 1, Saved(x.payload, 2)) && WaitsFor(w, 0, Saved(x.payload, 1));
    Extend(a, AwaitedSaves, w, ExecuteSave(Saved(x.payload, 2)));
    w := Next(a, w, ExecuteSave(Saved(x.payload, 2)));
    save := Saved(x.payload, 1);
    assert WaitsFor(w, 0, save);
  }

  /** One writer: a save that is executed after its writer went on takes the slot back, too. */
  lemma LateSaveFalls(state: State, view: View, x: Parts, c: Command)
      returns (a: Actor, w: World, save: StoredSnapshot)
    ensures Lawful(a) && Reaches(a, OneWriter(0), w)
    ensures Falls(w, save)
  {
    a := Sample(state, x.event, x.snapshot, view, x.payload);
    SampleIsSample(state, view, x);
    var w0 := FirstSnapshot(a, x, OneWriter(0), c);
    Extend(a, OneWriter(0), w0, Settle(0));
    var w1 := To(w0, 0, Running(a.init, 1));
    var w2 := Appends(a, x, OneWriter(0), w1, 0, 1, c);
    var w3 := Offers(a, x, OneWriter(0), w2, 0, 1);
    Extend(a, OneWriter(0), w3, ExecuteSave(Saved(x.payload, 2)));
    w := w3.(slot := Some(Saved(x.payload, 2)), saves := w3.saves - {Saved(x.payload, 2)});
    save := Saved(x.payload, 1);
  }
}
