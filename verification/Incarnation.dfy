/**
 * The life of one incarnation over whole runs: from where it recovers and how far, what settling a
 * command makes of its state, when it stops for good, and that a failure costs it its state.
 */
module Incarnations {
  import opened Prelude
  import opened SeqNos
  import opened Versioned
  import opened EventSourced
  import opened Fencing

  // ----- appends

  /**
   * The store executes an append if and only if its position is the end of the stream and it fits;
   * the writer is told so, of a conflict if and only if the position is stale, and of nothing at all
   * when the store is full.
   */
  lemma AppendOutcome(a: Actor, run: seq<World>, acts: seq<Action>, k: nat)
    requires Lawful(a) && IsRun(a, run, acts) && k < |acts| && acts[k].ExecuteAppend?
    ensures var (w, w', r) := (run[k], run[k + 1], acts[k].request);
      var d := w.decided[r];
      && (if d.at == |w.stream| && |w.stream| + |d.effect.events| <= STREAM_LIMIT then
            && Flat(w'.history) == Flat(w.history) + d.effect.events && w'.history == w.history + [d]
            && StoredAt(a, 0, w'.stream, Flat(w'.history)) && w.stream <= w'.stream
            && r in w'.replies && w'.replies[r]
          else
            && w'.stream == w.stream && w'.history == w.history
            && (r in w'.replies <==> d.at != |w.stream|) && (r in w'.replies ==> !w'.replies[r]))
      && r !in w'.appends
  {
    RunInv(a, run, acts, k);
    RunInv(a, run, acts, k + 1);
    var w := run[k];
    FlatSnoc(w.history, w.decided[acts[k].request]);
  }

  // ----- recovery

  predicate Loads(act: Action, i: nat) {
    act == LoadSnapshot(i) || act == LoadDiscarding(i)
  }

  /**
   * Recovery starts from the snapshot and the position it covers, if there is one that decodes, and
   * from the seed at position zero otherwise.
   */
  lemma RecoveryStartsAtSnapshot(a: Actor, run: seq<World>, acts: seq<Action>, k: nat, i: nat)
    requires IsRun(a, run, acts) && k < |acts| && Loads(acts[k], i)
    ensures i in run[k + 1].phases && run[k + 1].phases[i].Replaying?
    ensures forall s, v | acts[k] == LoadSnapshot(i) && run[k].slot == Some(s) &&
                          DecodeVersioned(a.snapshots, s.snapshot) == Ok(v) ::
              run[k + 1].phases[i] == Replaying(a.initFromSnapshot(v), s.nextSeqNo)
    ensures acts[k] == LoadDiscarding(i) || run[k].slot.None? ||
            DecodeVersioned(a.snapshots, run[k].slot.value.snapshot).Err? ==>
              run[k + 1].phases[i] == Replaying(a.init, 0)
  {
  }

  /** A page read now: up to 512 of the events behind the position, and the last one if fewer are left. */
  lemma PageReadsOn(a: Actor, run: seq<World>, acts: seq<Action>, k: nat)
    requires Lawful(a) && IsRun(a, run, acts) && k < |acts| && acts[k].ReadPage?
    ensures var (p, p', events) := (run[k].phases[acts[k].i], run[k + 1].phases[acts[k].i], Flat(run[k].history));
      && p.next <= |events| == |run[k].stream|
      && (if |events| - p.next < REPLAY_PAGE then
            p'.Replayed? && p'.next == |events| && p'.state == ApplyEvents(a, p.state, events[p.next..])
          else
            && p'.Replaying? && p'.next == p.next + REPLAY_PAGE
            && p'.state == ApplyEvents(a, p.state, events[p.next..p.next + REPLAY_PAGE]))
  {
    RunInv(a, run, acts, k);
    var (p, events, stream) := (run[k].phases[acts[k].i], Flat(run[k].history), run[k].stream);
    assert PhaseInv(a, run[k], p);
    var page := Read(stream, p.next, REPLAY_PAGE);
    var end := p.next + |page|;
    assert page == stream[p.next..end];
    StoredSlice(a, stream, events, p.next, end);
    ReplayPageApplies(a, p.state, p.next, page, events[p.next..end]);
    if end == |events| {
      assert events[p.next..] == events[p.next..end];
    }
  }

  predicate IsReplay(p: Phase) {
    p.Replaying? || p.Replayed?
  }

  /** An incarnation is replaying only because it was and did something else, or because it read a page. */
  lemma ReplayBefore(a: Actor, w: World, act: Action, i: nat)
    requires Enabled(a, w, act) && !Loads(act, i) && i in Next(a, w, act).phases && IsReplay(Next(a, w, act).phases[i])
    ensures i in w.phases && (act == ReadPage(i) || Next(a, w, act).phases[i] == w.phases[i])
    ensures act == ReadPage(i) ==> w.phases[i].Replaying?
  {
    if !Concerns(act, i) {
      OtherPhaseSame(a, w, act, i);
    }
  }

  /** A step only ever adds events. */
  lemma EventsGrow(a: Actor, w: World, act: Action) returns (more: seq<Event>)
    requires Enabled(a, w, act)
    ensures Flat(Next(a, w, act).history) == Flat(w.history) + more
  {
    more := [];
    if act.ExecuteAppend? {
      if Next(a, w, act).history != w.history {
        FlatSnoc(w.history, w.decided[act.request]);
        more := w.decided[act.request].effect.events;
      }
    } else {
      QuietGrows(a, w, act);
    }
  }

  /** A further page extends what replay has added. */
  lemma PageExtends(a: Actor, events: seq<Event>, state: State, from: nat, mid: nat, to: nat)
    requires from <= mid <= to <= |events|
    ensures ApplyEvents(a, ApplyEvents(a, state, events[from..mid]), events[mid..to]) ==
      ApplyEvents(a, state, events[from..to])
  {
    assert events[from..to] == events[from..mid] + events[mid..to];
    ApplyConcat(a, state, events[from..mid], events[mid..to]);
  }

  /** One step of an incarnation that is replaying, seen from where it started. */
  lemma ReplayStep(a: Actor, run: seq<World>, acts: seq<Action>, k: nat, i: nat, state: State, from: nat)
    requires Lawful(a) && IsRun(a, run, acts) && k < |acts| && !Loads(acts[k], i)
    requires i in run[k + 1].phases && IsReplay(run[k + 1].phases[i])
    requires i in run[k].phases && IsReplay(run[k].phases[i]) ==>
      Added(a, state, from, Flat(run[k].history), run[k].phases[i])
    ensures Added(a, state, from, Flat(run[k + 1].history), run[k + 1].phases[i])
  {
    var w, act := run[k], acts[k];
    ReplayBefore(a, w, act, i);
    var (o, q) := (w.phases[i], run[k + 1].phases[i]);
    var more := EventsGrow(a, w, act);
    var events := Flat(w.history);
    if act == ReadPage(i) {
      PageReadsOn(a, run, acts, k);
      QuietGrows(a, w, act);
      assert q.next == |events| ==> events[o.next..] == events[o.next..q.next];
      PageExtends(a, events, state, from, o.next, q.next);
    } else {
      assert (events + more)[from..o.next] == events[from..o.next];
    }
  }

  /** The phase's state is the given one with exactly the events between the two positions applied. */
  ghost predicate Added(a: Actor, state: State, from: nat, events: seq<Event>, p: Phase)
    requires IsReplay(p)
  {
    from <= p.next <= |events| && p.state == ApplyEvents(a, state, events[from..p.next])
  }

  lemma ReplayWas(a: Actor, run: seq<World>, acts: seq<Action>, k: nat, i: nat)
    requires IsRun(a, run, acts) && k < |acts| && !Loads(acts[k], i)
    requires i in run[k + 1].phases && IsReplay(run[k + 1].phases[i])
    ensures i in run[k].phases && IsReplay(run[k].phases[i])
  {
    ReplayBefore(a, run[k], acts[k], i);
  }

  lemma NothingAdded(a: Actor, run: seq<World>, acts: seq<Action>, k: nat, i: nat)
    requires Lawful(a) && IsRun(a, run, acts) && k < |run| && i in run[k].phases && run[k].phases[i].Replaying?
    ensures Added(a, run[k].phases[i].state, run[k].phases[i].next, Flat(run[k].history), run[k].phases[i])
  {
    RunInv(a, run, acts, k);
    var p := run[k].phases[i];
    assert PhaseInv(a, run[k], p);
    assert Flat(run[k].history)[p.next..p.next] == [];
  }

  /**
   * What replay adds to where it started is exactly the events from that position on, applied in
   * order: nothing before it is read, whatever other writers append meanwhile.
   */
  lemma {:induction false} ReplayAddsTheTail(
      a: Actor, run: seq<World>, acts: seq<Action>, k: nat, l: nat, i: nat)
    requires Lawful(a) && IsRun(a, run, acts) && k <= l < |run|
    requires i in run[k].phases && run[k].phases[i].Replaying?
    requires i in run[l].phases && IsReplay(run[l].phases[i])
    requires forall m | k <= m < l :: !Loads(acts[m], i)
    ensures Added(a, run[k].phases[i].state, run[k].phases[i].next, Flat(run[l].history), run[l].phases[i])
    decreases l
  {
    var p := run[k].phases[i];
    if k == l {
      NothingAdded(a, run, acts, k, i);
    } else {
      ReplayWas(a, run, acts, l - 1, i);
      ReplayAddsTheTail(a, run, acts, k, l - 1, i);
      ReplayStep(a, run, acts, l - 1, i, p.state, p.next);
    }
  }

  // ----- settling

  /** Behind its append an incarnation holds exactly the decided state with the decided events applied. */
  ghost predicate Exact(a: Actor, w: World, p: Phase) {
    p.Applied? || p.Offering? ==>
      && p.id in w.decided
      && var d := w.decided[p.id];
      p.state == ApplyEvents(a, d.state, d.effect.events) && p.next == AdvancedBy(d.at, |d.effect.events|)
  }

  lemma OwnExact(a: Actor, w: World, act: Action, j: nat)
    requires Enabled(a, w, act) && Concerns(act, j) && (j in w.phases ==> Exact(a, w, w.phases[j]))
    ensures j in Next(a, w, act).phases && Exact(a, Next(a, w, act), Next(a, w, act).phases[j])
  {
  }

  lemma DecidedKept(a: Actor, w: World, act: Action, id: nat)
    requires Enabled(a, w, act) && id in w.decided
    ensures id in Next(a, w, act).decided && Next(a, w, act).decided[id] == w.decided[id]
  {
  }

  lemma StepExact(a: Actor, w: World, act: Action)
    requires Enabled(a, w, act) && forall j | j in w.phases :: Exact(a, w, w.phases[j])
    ensures forall j | j in Next(a, w, act).phases :: Exact(a, Next(a, w, act), Next(a, w, act).phases[j])
  {
    var w' := Next(a, w, act);
    forall j | j in w'.phases ensures Exact(a, w', w'.phases[j]) {
      if Concerns(act, j) {
        OwnExact(a, w, act, j);
      } else {
        OtherPhaseSame(a, w, act, j);
        if w.phases[j].Applied? || w.phases[j].Offering? {
          DecidedKept(a, w, act, w.phases[j].id);
        }
      }
    }
  }

  lemma {:induction false} RunExact(a: Actor, run: seq<World>, acts: seq<Action>, k: nat)
    requires IsRun(a, run, acts) && k < |run|
    ensures forall j | j in run[k].phases :: Exact(a, run[k], run[k].phases[j])
  {
    if k > 0 {
      RunExact(a, run, acts, k - 1);
      StepExact(a, run[k - 1], acts[k - 1]);
    }
  }

  lemma {:induction false} RunDecided(a: Actor, run: seq<World>, acts: seq<Action>, k: nat, l: nat, id: nat)
    requires IsRun(a, run, acts) && k <= l < |run| && id in run[k].decided
    ensures id in run[l].decided && run[l].decided[id] == run[k].decided[id]
    decreases l
  {
    if k < l {
      RunDecided(a, run, acts, k, l - 1, id);
      DecidedKept(a, run[l - 1], acts[l - 1], id);
    }
  }

  lemma PhaseKept(a: Actor, w: World, act: Action, j: nat)
    requires Enabled(a, w, act) && j in w.phases && !Concerns(act, j)
    ensures j in Next(a, w, act).phases && Next(a, w, act).phases[j] == w.phases[j]
  {
  }

  lemma StoppedStep(a: Actor, w: World, act: Action, j: nat)
    requires Enabled(a, w, act) && j in w.phases && w.phases[j].Stopped?
    ensures !Concerns(act, j)
  {
  }

  /** An effect without events leaves state and position alone, and only its continuations are still to run. */
  lemma NothingToAppend(a: Actor, run: seq<World>, acts: seq<Action>, k: nat, l: nat)
    requires IsRun(a, run, acts) && k < l < |acts| && acts[k].Handle? && acts[k].effect.events == []
    requires acts[l] == SkipAppend(acts[k].i) && run[l].phases[acts[k].i].id == acts[k].newId
    ensures var p := run[k].phases[acts[k].i];
      run[l + 1] == To(run[l], acts[k].i, Applied(p.state, p.next, acts[k].newId))
  {
    RunDecided(a, run, acts, k + 1, l, acts[k].newId);
  }

  /** A stopped incarnation takes no further step. */
  lemma {:induction false} StoppedForGood(a: Actor, run: seq<World>, acts: seq<Action>, k: nat, l: nat, i: nat)
    requires IsRun(a, run, acts) && k <= l < |run| && i in run[k].phases && run[k].phases[i].Stopped?
    ensures i in run[l].phases && run[l].phases[i].Stopped?
    ensures l < |acts| ==> !Concerns(acts[l], i)
    decreases l
  {
    if k < l {
      StoppedForGood(a, run, acts, k, l - 1, i);
      PhaseKept(a, run[l - 1], acts[l - 1], i);
    }
    if l < |acts| {
      StoppedStep(a, run[l], acts[l], i);
    }
  }

  /** Step `l` settles the decision that step `k` made. */
  ghost predicate Settles(a: Actor, run: seq<World>, acts: seq<Action>, k: nat, l: nat) {
    && IsRun(a, run, acts) && k < l < |acts| && acts[k].Handle?
    && acts[l] == Settle(acts[k].i) && run[l].phases[acts[k].i].id == acts[k].newId
  }

  /**
   * A settled command leaves the state it was handled on with its events applied and the position
   * behind them, unless its effect asks to stop: then the incarnation never takes a step again.
   */
  lemma SettlementOutcome(a: Actor, run: seq<World>, acts: seq<Action>, k: nat, l: nat)
    requires Lawful(a) && Settles(a, run, acts, k, l)
    ensures var (i, effect, p) := (acts[k].i, acts[k].effect, run[k].phases[acts[k].i]);
      if effect.stop then forall m | l < m < |acts| :: !Concerns(acts[m], i)
      else
        run[l + 1].phases[i] == Running(ApplyEvents(a, p.state, effect.events), AdvancedBy(p.next, |effect.events|))
    ensures acts[k].effect.stop <==> run[l + 1].phases[acts[k].i].Stopped?
  {
    var i, id := acts[k].i, acts[k].newId;
    RunDecided(a, run, acts, k + 1, l, id);
    RunExact(a, run, acts, l);
    assert Exact(a, run[l], run[l].phases[i]);
    if acts[k].effect.stop {
      forall m | l < m < |acts| ensures !Concerns(acts[m], i) {
        StoppedForGood(a, run, acts, l + 1, m, i);
      }
    }
  }

  // ----- failing

  /** The incarnation begins, or its step fails: by itself, in a continuation, or because its append lost. */
  ghost predicate Falls(w: World, act: Action, i: nat) {
    || act == Spawn(i) || act == Restart(i) || act == Fail(i) || act == RunThens(i, false)
    || (act == AppendReplied(i) && i in w.phases && w.phases[i].Appending? &&
        w.phases[i].id in w.replies && !w.replies[w.phases[i].id])
  }

  predicate IsDown(p: Phase) {
    p.Failed? || p.Loading? || p.Stopped?
  }

  lemma {:induction false} DownUntilLoaded(a: Actor, run: seq<World>, acts: seq<Action>, k: nat, l: nat, i: nat)
    requires IsRun(a, run, acts) && k <= l < |run| && i in run[k].phases && IsDown(run[k].phases[i])
    requires forall m | k <= m < l :: !Loads(acts[m], i)
    ensures i in run[l].phases && IsDown(run[l].phases[i])
    decreases l
  {
    if k < l {
      DownUntilLoaded(a, run, acts, k, l - 1, i);
    }
  }

  /** A failure costs the incarnation its state: before it handles another command it recovers from the store. */
  lemma FailureRecoversAnew(a: Actor, run: seq<World>, acts: seq<Action>, k: nat, l: nat, i: nat)
    requires IsRun(a, run, acts) && k < l < |acts| && Falls(run[k], acts[k], i)
    requires acts[l].Handle? && acts[l].i == i
    ensures exists m :: k < m < l && Loads(acts[m], i)
  {
    if !exists m :: k < m < l && Loads(acts[m], i) {
      DownUntilLoaded(a, run, acts, k + 1, l, i);
    }
  }

  /** The incarnation's own step fails: by itself, in a continuation, or because its append lost. */
  ghost predicate Fails(w: World, act: Action, i: nat) {
    Falls(w, act, i) && act != Spawn(i) && act != Restart(i)
  }

  lemma FailsStep(a: Actor, w: World, act: Action, i: nat)
    requires Enabled(a, w, act) && act != ReadPage(i)
    requires !(i in w.phases && w.phases[i].Failed?)
    ensures i in Next(a, w, act).phases && Next(a, w, act).phases[i].Failed? <==> Fails(w, act, i)
  {
    if !Concerns(act, i) && i in Next(a, w, act).phases {
      OtherPhaseSame(a, w, act, i);
    }
  }

  /** An incarnation fails if and only if its own step fails: no recovery, command or settlement does by itself. */
  lemma FailsOnlyByFailing(a: Actor, run: seq<World>, acts: seq<Action>, k: nat, i: nat)
    requires Lawful(a) && IsRun(a, run, acts) && k < |acts|
    requires !(i in run[k].phases && run[k].phases[i].Failed?)
    ensures i in run[k + 1].phases && run[k + 1].phases[i].Failed? <==> Fails(run[k], acts[k], i)
  {
    if acts[k] == ReadPage(i) {
      PageReadsOn(a, run, acts, k);
    } else {
      FailsStep(a, run[k], acts[k], i);
    }
  }

  /** The step settles an effect that asks to stop, or the parent stops the incarnation. */
  ghost predicate Stops(w: World, act: Action, i: nat) {
    || act == StopByParent(i)
    || (act == Settle(i) && i in w.phases && w.phases[i].Offering? && w.phases[i].id in w.decided &&
        w.decided[w.phases[i].id].effect.stop)
  }

  /** An incarnation stops if and only if its effect or its parent says so. */
  lemma StopsOnlyWhenTold(a: Actor, run: seq<World>, acts: seq<Action>, k: nat, i: nat)
    requires Lawful(a) && IsRun(a, run, acts) && k < |acts|
    requires !(i in run[k].phases && run[k].phases[i].Stopped?)
    ensures i in run[k + 1].phases && run[k + 1].phases[i].Stopped? <==> Stops(run[k], acts[k], i)
  {
    if acts[k] == ReadPage(i) {
      PageReadsOn(a, run, acts, k);
    } else {
      StopsStep(a, run[k], acts[k], i);
    }
  }

  lemma StopsStep(a: Actor, w: World, act: Action, i: nat)
    requires Enabled(a, w, act) && act != ReadPage(i)
    requires !(i in w.phases && w.phases[i].Stopped?)
    ensures i in Next(a, w, act).phases && Next(a, w, act).phases[i].Stopped? <==> Stops(w, act, i)
  {
    if !Concerns(act, i) && i in Next(a, w, act).phases {
      OtherPhaseSame(a, w, act, i);
    }
  }

  /** The state an incarnation runs with is the one `recovered` made of the replayed state, at its position. */
  lemma RunsWithRecovered(a: Actor, run: seq<World>, acts: seq<Action>, k: nat, i: nat)
    requires IsRun(a, run, acts) && k < |acts| && i in run[k].phases && run[k].phases[i].Replayed?
    requires i in run[k + 1].phases && run[k + 1].phases[i].Running?
    ensures var (p, p') := (run[k].phases[i], run[k + 1].phases[i]);
      a.recovered(p.state, p'.state) && p'.next == p.next && acts[k] == Reconcile(i, p'.state)
  {
    if !Concerns(acts[k], i) {
      OtherPhaseSame(a, run[k], acts[k], i);
    }
  }
}
