/** The run loop of an actor over every run of an actor system: in which order it initializes, receives and restarts. */
module Lifecycles {
  import opened Prelude
  import opened Mailboxes
  import opened ActorTree

  /** How often the actor dequeued between two steps. */
  ghost function Dequeues(acts: seq<Action>, w: nat, k: nat, l: nat): nat
    requires k <= l <= |acts|
    decreases l - k
  {
    if k == l then 0 else Dequeues(acts, w, k, l - 1) + if acts[l - 1] == Own(w, Take) then 1 else 0
  }

  /** Nothing but its own dequeuing touches the front of a mailbox, and nothing but terminating ends the run loop. */
  lemma RunsOn(s: System, act: Action, w: nat)
    requires Enabled(s, act) && w in s.actors && Running(s.actors[w].phase) && act != Own(w, Terminate)
    ensures w in Next(s, act).actors
    ensures var a, a' := s.actors[w], Next(s, act).actors[w];
      Running(a'.phase) && a.log <= a'.log && a'.taken == a.taken + if act == Own(w, Take) then 1 else 0
  {
  }

  /**
   * An actor that does not terminate runs on, and its mailbox loses nothing, over any number of
   * restarts: what was enqueued stays, and the front moves by one per dequeue.
   */
  lemma {:induction false} MailboxSurvivesRestarts(run: seq<System>, acts: seq<Action>, k: nat, l: nat, w: nat)
    requires IsRun(run, acts) && k <= l < |run| && w in run[k].actors && Running(run[k].actors[w].phase)
    requires forall m | k <= m < l :: acts[m] != Own(w, Terminate)
    ensures w in run[l].actors && Running(run[l].actors[w].phase)
    ensures run[k].actors[w].log <= run[l].actors[w].log
    ensures run[l].actors[w].taken == run[k].actors[w].taken + Dequeues(acts, w, k, l)
    decreases l
  {
    if k < l {
      MailboxSurvivesRestarts(run, acts, k, l - 1, w);
      RunsOn(run[l - 1], acts[l - 1], w);
    }
  }

  /** A span of the run loop that the actor leaves only by certain steps, or for good. */
  datatype Span = AwaitingInit | InInit | InReceive

  predicate Within(span: Span, p: Phase) {
    match span
    case AwaitingInit => p.Restarting? || p.BackingOff?
    case InInit => p.Initializing? || p.Restarting? || p.BackingOff?
    case InReceive => p.Receiving?
  }

  predicate Leaves(span: Span, w: nat, act: Action) {
    match span
    case AwaitingInit => act == Own(w, Reinit)
    case InInit => act == Own(w, InitDone)
    case InReceive => act == Own(w, ReceiveDone) || act == Own(w, Restart)
  }

  lemma SpanStep(span: Span, s: System, act: Action, w: nat)
    requires Enabled(s, act) && w in s.actors && !Leaves(span, w, act)
    requires Within(span, s.actors[w].phase) || !Running(s.actors[w].phase)
    ensures w in Next(s, act).actors
    ensures var p := Next(s, act).actors[w].phase; Within(span, p) || !Running(p)
  {
  }

  lemma {:induction false} SpanLasts(span: Span, run: seq<System>, acts: seq<Action>, k: nat, l: nat, w: nat)
    requires IsRun(run, acts) && k <= l < |run| && w in run[k].actors && Within(span, run[k].actors[w].phase)
    requires forall m | k <= m < l :: !Leaves(span, w, acts[m])
    ensures w in run[l].actors && (Within(span, run[l].actors[w].phase) || !Running(run[l].actors[w].phase))
    decreases l
  {
    if k < l {
      SpanLasts(span, run, acts, k, l - 1, w);
      SpanStep(span, run[l - 1], acts[l - 1], w);
    }
  }

  /** One incoming at a time: between two dequeues, the first of which handed something on, its code is done. */
  lemma OneAtATime(run: seq<System>, acts: seq<Action>, k: nat, l: nat, w: nat)
    requires IsRun(run, acts) && k < l < |acts| && acts[k] == Own(w, Take) && acts[l] == Own(w, Take)
    requires run[k + 1].actors[w].phase.Receiving?
    ensures exists m :: k < m < l && Leaves(InReceive, w, acts[m])
  {
    if !exists m :: k < m < l && Leaves(InReceive, w, acts[m]) {
      SpanLasts(InReceive, run, acts, k + 1, l, w);
    }
  }

  /** A restarted actor receives nothing before `init` has been run again, and is done. */
  lemma InitBeforeReceiving(run: seq<System>, acts: seq<Action>, k: nat, l: nat, w: nat) returns (m: nat, n: nat)
    requires IsRun(run, acts) && k < l < |acts| && acts[k] == Own(w, Restart) && acts[l] == Own(w, Take)
    ensures k < m < n < l && acts[m] == Own(w, Reinit) && acts[n] == Own(w, InitDone)
  {
    if !exists i :: k < i < l && Leaves(AwaitingInit, w, acts[i]) {
      SpanLasts(AwaitingInit, run, acts, k + 1, l, w);
      assert false;
    }
    m :| k < m < l && Leaves(AwaitingInit, w, acts[m]);
    if !exists i :: m < i < l && Leaves(InInit, w, acts[i]) {
      SpanLasts(InInit, run, acts, m + 1, l, w);
      assert false;
    }
    n :| m < n < l && Leaves(InInit, w, acts[n]);
  }

  /** What is dequeued is handed to the actor's code exactly if it is a message or the signal of a watched actor. */
  lemma DequeuedIsHandedOn(run: seq<System>, acts: seq<Action>, k: nat, w: nat)
    requires IsRun(run, acts) && k < |acts| && acts[k] == Own(w, Take)
    ensures var (a, a') := (run[k].actors[w], run[k + 1].actors[w]);
      && a.taken < |a.log|
      && (a'.phase.Receiving? <==> a.log[a.taken].Message? || a.log[a.taken].other in a.watched)
      && (a'.phase.Waiting? <==> !a'.phase.Receiving?)
  {
  }

  /** A send puts exactly that message at the end of a connected mailbox, and touches no other actor. */
  lemma SendEnqueues(run: seq<System>, acts: seq<Action>, k: nat)
    requires IsRun(run, acts) && k < |acts| && (acts[k].Send? || acts[k].SendFromOutside?)
    ensures run[k + 1].actors.Keys == run[k].actors.Keys
    ensures forall v | v in run[k].actors && v != acts[k].to :: run[k + 1].actors[v] == run[k].actors[v]
    ensures var (a, a') := (run[k].actors[acts[k].to], run[k + 1].actors[acts[k].to]);
      var message := Message(if acts[k].Send? then Some(acts[k].w) else None, acts[k].body);
      a' == a.(log := if Connected(a.phase) then a.log + [message] else a.log)
  {
  }

  /** Once it has begun to terminate, an actor receives nothing anymore: what is still queued then is discarded. */
  lemma {:induction false} NothingAfterTermination(run: seq<System>, acts: seq<Action>, k: nat, l: nat, w: nat)
    requires IsRun(run, acts) && k < l < |run| && acts[k] == Own(w, Terminate)
    ensures w in run[l].actors && !Running(run[l].actors[w].phase)
    ensures l < |acts| ==> acts[l] != Own(w, Take)
    ensures w in run[k].actors && run[k + 1].actors[w].taken == |run[k].actors[w].log|
    decreases l
  {
    if k + 1 < l {
      NothingAfterTermination(run, acts, k, l - 1, w);
      EndedStep(run[l - 1], acts[l - 1], w);
    }
  }

  lemma EndedStep(s: System, act: Action, w: nat)
    requires Enabled(s, act) && w in s.actors && !Running(s.actors[w].phase)
    ensures w in Next(s, act).actors && !Running(Next(s, act).actors[w].phase)
  {
  }

  // ----- the termination sequence

  /** How far a termination has come. */
  function Rank(p: Phase): nat {
    match p
    case Deregistering(_) => 1
    case StoppingChildren => 2
    case Dropping => 3
    case Signaling(_) => 4
    case Dead => 5
    case _ => 0
  }

  /** The steps of a termination, in their order. */
  const TERMINATION: seq<OwnAction> := [Disconnect, StopChildren, ChildrenGone, TakeWatchers, End]

  lemma TerminationStep(s: System, act: Action, w: nat)
    requires Enabled(s, act) && w in s.actors && !Running(s.actors[w].phase) && s.actors[w].call.NoCall?
    ensures w in Next(s, act).actors
    ensures var (p, p') := (s.actors[w].phase, Next(s, act).actors[w].phase);
      && !Running(p') && Next(s, act).actors[w].call.NoCall?
      && (forall own | act == Own(w, own) ::
            Rank(p) < 5 && own == TERMINATION[Rank(p)] && Rank(p') == Rank(p) + 1)
      && (!(act.Own? && act.w == w) ==> Rank(p') == Rank(p))
  {
  }

  /** How many steps of its own the actor took between two steps. */
  ghost function OwnSteps(acts: seq<Action>, w: nat, k: nat, l: nat): nat
    requires k <= l <= |acts|
    decreases l - k
  {
    if k == l then 0 else OwnSteps(acts, w, k, l - 1) + if acts[l - 1].Own? && acts[l - 1].w == w then 1 else 0
  }

  /**
   * An actor that terminates takes exactly the five steps of the sequence, in order: how far it is
   * says how many it took, and the next one it takes is the one due.
   */
  lemma {:induction false} TerminatesInOrder(run: seq<System>, acts: seq<Action>, k: nat, l: nat, w: nat)
    requires IsRun(run, acts) && k < l < |run| && acts[k] == Own(w, Terminate)
    ensures w in run[l].actors && !Running(run[l].actors[w].phase) && run[l].actors[w].call.NoCall?
    ensures Rank(run[l].actors[w].phase) == OwnSteps(acts, w, k + 1, l)
    ensures l < |acts| && acts[l].Own? && acts[l].w == w ==>
      OwnSteps(acts, w, k + 1, l) < 5 && acts[l].own == TERMINATION[OwnSteps(acts, w, k + 1, l)]
    decreases l
  {
    if k + 1 < l {
      TerminatesInOrder(run, acts, k, l - 1, w);
      TerminationStep(run[l - 1], acts[l - 1], w);
    }
    if l < |acts| {
      TerminationStep(run[l], acts[l], w);
    }
  }

  /** Waiting for the old children, then for the backoff: the two stages of a restart before `init` runs again. */
  lemma RestartStages(run: seq<System>, acts: seq<Action>, k: nat, w: nat)
    requires IsRun(run, acts) && k < |acts|
    ensures acts[k] == Own(w, Restart) ==> run[k + 1].actors[w].phase.Restarting?
    ensures acts[k] == Own(w, OldChildrenGone) ==>
      run[k].actors[w].phase.Restarting? && run[k + 1].actors[w].phase.BackingOff? && ChannelClosed(run[k], w)
    ensures acts[k] == Own(w, Reinit) ==>
      run[k].actors[w].phase.BackingOff? && run[k + 1].actors[w] == run[k].actors[w].(phase := Initializing)
  {
  }

  // ----- the substeps of `watch` and `unwatch`

  ghost predicate CanCall(s: System, w: nat, t: nat) {
    w in s.actors && t in s.actors && InUserCode(s.actors[w].phase) && s.actors[w].call.NoCall?
  }

  /**
   * Without interference the substeps of `watch` are possible one after the other and do what the call
   * promises: the actor is in the open registry, or has the signal at the end of its mailbox.
   */
  lemma WatchIsItsSubsteps(s: System, w: nat, t: nat) returns (s': System)
    requires CanCall(s, w, t)
    ensures var registered := SetRegistry(s, t, Added(s.actors[t].registry, ActorWatcher(w)));
      var a := registered.actors[w];
      s' == Put(registered, w,
                a.(watched := a.watched + {t},
                   log := if s.actors[t].registry.None? then a.log + [Terminated(t)] else a.log))
    ensures var s1 := Next(s, WatchAdd(w, t));
      && Enabled(s, WatchAdd(w, t)) && Enabled(s1, Own(w, WatchInsert))
      && var s2 := Next(s1, Own(w, WatchInsert));
      if s.actors[t].registry.Some? then s' == s2
      else Enabled(s2, Own(w, WatchSelfSignal)) && s' == Next(s2, Own(w, WatchSelfSignal))
  {
    var s2 := Next(Next(s, WatchAdd(w, t)), Own(w, WatchInsert));
    s' := if s.actors[t].registry.Some? then s2 else Next(s2, Own(w, WatchSelfSignal));
    var registered := SetRegistry(s, t, Added(s.actors[t].registry, ActorWatcher(w)));
    assert s'.actors == registered.actors[w := s'.actors[w]];
  }

  /** The substeps of `unwatch` end the watch on both sides. */
  lemma UnwatchIsItsSubsteps(s: System, w: nat, t: nat) returns (s': System)
    requires CanCall(s, w, t) && t in s.actors[w].watched
    ensures Enabled(s, Own(w, UnwatchRemove(t)))
    ensures var s1 := Next(s, Own(w, UnwatchRemove(t)));
      Enabled(s1, UnwatchDeregister(w)) && s' == Next(s1, UnwatchDeregister(w))
    ensures var removed := SetRegistry(s, t, Removed(s.actors[t].registry, ActorWatcher(w)));
      s' == Put(removed, w, removed.actors[w].(watched := s.actors[w].watched - {t}))
  {
    s' := Next(Next(s, Own(w, UnwatchRemove(t))), UnwatchDeregister(w));
    var removed := SetRegistry(s, t, Removed(s.actors[t].registry, ActorWatcher(w)));
    assert s'.actors == removed.actors[w := s'.actors[w]];
  }

  /** A terminating actor leaves the registry of an actor it watched, once. */
  lemma DeregistersOnce(run: seq<System>, acts: seq<Action>, k: nat)
    requires IsRun(run, acts) && k < |acts| && acts[k].Deregister?
    ensures var (w, t) := (acts[k].w, acts[k].t);
      && var (p, p') := (run[k].actors[w].phase, run[k + 1].actors[w].phase);
      && p.Deregistering? && t in p.rest && p' == Deregistering(p.rest - {t})
      && run[k + 1].actors[t].registry == Removed(run[k].actors[t].registry, ActorWatcher(w))
  {
  }
}
