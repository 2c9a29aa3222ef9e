/**
 * The tree: stop signals and the "channel closed" barrier work per generation of children, so
 * termination is bottom-up and a restarted actor starts over without any earlier child.
 */
module Supervision {
  import opened Prelude
  import opened Mailboxes
  import opened ActorTree
  import DeathWatch

  /** Since the current generation began, the actor's code has not run. */
  predicate Barren(p: Phase) {
    p.Restarting? || p.BackingOff? || p.StoppingChildren? || p.Dropping? || Closed(p)
  }

  /** What holds between a child and its parent, given their records. */
  ghost predicate FamilyOk(c: Actor, p: Actor) {
    && c.depth == p.depth + 1
    && c.parentGen <= p.gen
    && (Barren(p.phase) ==> c.parentGen < p.gen)
    && (c.parentGen < p.gen && !(AwaitsChildren(p.phase) && c.parentGen + 1 == p.gen) ==> c.phase.Dead?)
  }

  ghost predicate TreeInv(s: System) {
    && s.root in s.actors
    && forall c | c in s.actors ::
         && (s.actors[c].parent.None? <==> c == s.root)
         && (s.actors[c].parent.Some? ==>
               s.actors[c].parent.value in s.actors && FamilyOk(s.actors[c], s.actors[s.actors[c].parent.value]))
  }

  lemma OwnFamily(s: System, p: nat, own: OwnAction, c: nat)
    requires CanOwn(s, p, own) && ChildOf(s, c, p) && FamilyOk(s.actors[c], s.actors[p])
    ensures FamilyOk(s.actors[c], AfterOwn(s.actors[p], own))
  {
  }

  lemma OwnTree(s: System, w: nat, own: OwnAction)
    requires TreeInv(s) && DeathWatch.TrueInv(s) && CanOwn(s, w, own)
    ensures TreeInv(Put(s, w, AfterOwn(s.actors[w], own)))
  {
    DeathWatch.TakenOfTrue(s);
    OwnPersists(s, w, own);
    var s' := Put(s, w, AfterOwn(s.actors[w], own));
    forall c | c in s.actors && s.actors[c].parent.Some?
      ensures FamilyOk(s'.actors[c], s'.actors[s.actors[c].parent.value])
    {
      var p := s.actors[c].parent.value;
      assert FamilyOk(s.actors[c], s.actors[p]);
      if p == w {
        OwnFamily(s, w, own, c);
      }
    }
  }

  /** Nothing the tree depends on differs. */
  ghost predicate TreeSame(a: Actor, a': Actor) {
    && a'.parent == a.parent && a'.parentGen == a.parentGen && a'.depth == a.depth && a'.gen == a.gen
    && Barren(a'.phase) == Barren(a.phase)
    && AwaitsChildren(a'.phase) == AwaitsChildren(a.phase)
    && (a'.phase.Dead? <==> a.phase.Dead?)
  }

  lemma SameTree(s: System, s': System)
    requires TreeInv(s) && s'.root == s.root && s'.actors.Keys == s.actors.Keys
    requires forall x | x in s.actors :: TreeSame(s.actors[x], s'.actors[x])
    ensures TreeInv(s')
  {
    forall c | c in s.actors && s.actors[c].parent.Some?
      ensures FamilyOk(s'.actors[c], s'.actors[s.actors[c].parent.value])
    {
      assert TreeSame(s.actors[c], s'.actors[c]);
      assert TreeSame(s.actors[s.actors[c].parent.value], s'.actors[s.actors[c].parent.value]);
    }
  }

  lemma CrossStepSame(s: System, act: Action, x: nat)
    requires Enabled(s, act) && !act.Own? && !act.Spawn? && x in s.actors
    ensures x in Next(s, act).actors && TreeSame(s.actors[x], Next(s, act).actors[x])
  {
  }

  lemma CrossTree(s: System, act: Action)
    requires TreeInv(s) && Enabled(s, act) && !act.Own? && !act.Spawn?
    ensures TreeInv(Next(s, act))
  {
    var s' := Next(s, act);
    assert s'.root == s.root && s'.actors.Keys == s.actors.Keys;
    forall x | x in s.actors ensures TreeSame(s.actors[x], s'.actors[x]) {
      CrossStepSame(s, act, x);
    }
    SameTree(s, s');
  }

  lemma SpawnTree(s: System, w: nat, child: nat)
    requires TreeInv(s) && Enabled(s, Spawn(w, child))
    ensures TreeInv(Put(s, child, Newborn(Some(w), s.actors[w].gen, s.actors[w].depth + 1)))
  {
  }

  lemma StepTree(s: System, act: Action)
    requires TreeInv(s) && DeathWatch.TrueInv(s) && Enabled(s, act)
    ensures TreeInv(Next(s, act))
  {
    match act
    case Own(w, own) => OwnTree(s, w, own);
    case Spawn(w, child) => SpawnTree(s, w, child);
    case _ => CrossTree(s, act);
  }

  // ----- the system's own sink

  ghost predicate SinkListed(b: Actor) {
    || (b.registry.Some? && SystemWatcher in b.registry.value)
    || (b.phase.Signaling? && SystemWatcher in b.phase.untold)
  }

  /** The sink is listed with the root exactly while registered, and resolved only by the root's termination. */
  ghost predicate SinkInv(s: System) {
    && s.root in s.actors
    && (forall t | t in s.actors && SinkListed(s.actors[t]) :: t == s.root)
    && (SinkListed(s.actors[s.root]) <==> s.sink.Registered?)
    && (s.sink.Resolved? ==> Closed(s.actors[s.root].phase))
  }

  lemma SinkStaysListed(s: System, act: Action, t: nat)
    requires Enabled(s, act) && DeathWatch.TrueInv(s) && t in s.actors
    requires !act.WatchRoot? && act != Signal(t, SystemWatcher)
    ensures t in Next(s, act).actors
    ensures SinkListed(Next(s, act).actors[t]) <==> SinkListed(s.actors[t])
  {
    assert DeathWatch.ActorTrue(s, s.actors[t]);
  }

  lemma SinkResolves(s: System, act: Action)
    requires SinkInv(s) && DeathWatch.TrueInv(s) && Enabled(s, act)
    requires act.WatchRoot? || (act.Signal? && act.watcher.SystemWatcher?)
    ensures SinkInv(Next(s, act))
  {
    assert DeathWatch.ActorTrue(s, s.actors[s.root]);
    if act.Signal? {
      assert SinkListed(s.actors[act.w]);
    }
  }

  lemma StepSink(s: System, act: Action)
    requires SinkInv(s) && DeathWatch.TrueInv(s) && Enabled(s, act)
    ensures SinkInv(Next(s, act))
  {
    if act.WatchRoot? || (act.Signal? && act.watcher.SystemWatcher?) {
      SinkResolves(s, act);
    } else {
      DeathWatch.TakenOfTrue(s);
      StepPersists(s, act);
      assert Later(s.actors[s.root], Next(s, act).actors[s.root]);
      forall t | t in s.actors
        ensures SinkListed(Next(s, act).actors[t]) <==> SinkListed(s.actors[t])
      {
        SinkStaysListed(s, act, t);
      }
    }
  }

  // ----- whole runs

  lemma {:induction false} RunTreeInv(run: seq<System>, acts: seq<Action>, k: nat)
    requires IsRun(run, acts) && k < |run|
    ensures TreeInv(run[k]) && SinkInv(run[k])
  {
    if k > 0 {
      RunTreeInv(run, acts, k - 1);
      DeathWatch.RunWatchInv(run, acts, k - 1);
      StepTree(run[k - 1], acts[k - 1]);
      StepSink(run[k - 1], acts[k - 1]);
    }
  }

  /** `c` is `t` or stands below it, `up` generations of actors down. */
  ghost predicate Below(s: System, c: nat, t: nat, up: nat)
    decreases up
  {
    c in s.actors &&
    if up == 0 then c == t else s.actors[c].parent.Some? && Below(s, s.actors[c].parent.value, t, up - 1)
  }

  /** All descendants of an actor that awaits no child and has had no code run since are dead. */
  lemma {:induction false} BarrenSubtreeIsDead(s: System, c: nat, t: nat, up: nat)
    requires TreeInv(s) && t in s.actors && up > 0 && Below(s, c, t, up)
    requires Barren(s.actors[t].phase) && !AwaitsChildren(s.actors[t].phase)
    ensures s.actors[c].phase.Dead?
    decreases up
  {
    var p := s.actors[c].parent.value;
    assert FamilyOk(s.actors[c], s.actors[p]);
    if up > 1 {
      BarrenSubtreeIsDead(s, p, t, up - 1);
    }
  }

  /** A dead actor has told every watcher its termination took, unless that watcher has no mailbox anymore. */
  ghost predicate ToldEveryone(s: System, c: nat)
    requires c in s.actors
  {
    forall w | w in s.actors && DeathWatch.ActorWatches(s.actors[c], w) ::
      Terminated(c) in s.actors[w].log || !Connected(s.actors[w].phase)
  }

  /**
   * Bottom-up termination: once anyone has been sent `Terminated(t)`, every actor ever spawned
   * below `t`, in any generation, is dead and has told all its watchers.
   */
  lemma TerminationIsBottomUp(run: seq<System>, acts: seq<Action>, k: nat, w: nat, t: nat, c: nat, up: nat)
    requires IsRun(run, acts) && k < |run| && w in run[k].actors
    requires Terminated(t) in run[k].actors[w].log
    requires up > 0 && Below(run[k], c, t, up)
    ensures run[k].actors[c].phase.Dead? && ToldEveryone(run[k], c)
  {
    RunTreeInv(run, acts, k);
    DeathWatch.RunWatchInv(run, acts, k);
    var i :| 0 <= i < |run[k].actors[w].log| && run[k].actors[w].log[i] == Terminated(t);
    assert DeathWatch.ActorTrue(run[k], run[k].actors[w]);
    assert DeathWatch.ItemTrue(run[k], run[k].actors[w].log[i]);
    BarrenSubtreeIsDead(run[k], c, t, up);
    DeadToldEveryone(run[k], c);
  }

  lemma DeadToldEveryone(s: System, c: nat)
    requires DeathWatch.ToldInv(s) && c in s.actors && s.actors[c].phase.Dead?
    ensures ToldEveryone(s, c)
  {
    forall w | w in s.actors && DeathWatch.ActorWatches(s.actors[c], w)
      ensures Terminated(c) in s.actors[w].log || !Connected(s.actors[w].phase)
    {
      assert DeathWatch.ToldOk(s, c, w);
    }
  }

  /** When `init` runs again, every child of an earlier generation is dead, and everything below it. */
  lemma RestartStartsAfresh(run: seq<System>, acts: seq<Action>, k: nat, p: nat, c: nat, d: nat, up: nat)
    requires IsRun(run, acts) && k < |run| && p in run[k].actors && run[k].actors[p].phase.Initializing?
    requires ChildOf(run[k], c, p) && run[k].actors[c].parentGen < run[k].actors[p].gen
    requires Below(run[k], d, c, up)
    ensures run[k].actors[d].phase.Dead?
  {
    RunTreeInv(run, acts, k);
    assert FamilyOk(run[k].actors[c], run[k].actors[p]);
    if up > 0 {
      BarrenSubtreeIsDead(run[k], d, c, up);
    }
  }

  /** Every actor descends from the root. */
  lemma {:induction false} AllBelowRoot(s: System, c: nat)
    requires TreeInv(s) && c in s.actors && s.actors[s.root].depth == 0
    ensures Below(s, c, s.root, s.actors[c].depth)
    decreases s.actors[c].depth
  {
    if c != s.root {
      var p := s.actors[c].parent.value;
      assert FamilyOk(s.actors[c], s.actors[p]);
      AllBelowRoot(s, p);
    }
  }

  /** Once `ActorSystem::terminated` resolves, every actor but the root is dead and the root has closed. */
  lemma SystemTerminated(run: seq<System>, acts: seq<Action>, k: nat, c: nat)
    requires IsRun(run, acts) && k < |run| && run[k].sink.Resolved? && c in run[k].actors
    ensures c == run[k].root ==> Closed(run[k].actors[c].phase)
    ensures c != run[k].root ==> run[k].actors[c].phase.Dead? && ToldEveryone(run[k], c)
  {
    RunTreeInv(run, acts, k);
    DeathWatch.RunWatchInv(run, acts, k);
    DeathWatch.RunPersists(run, acts, 0, k);
    assert Later(run[0].actors[run[0].root], run[k].actors[run[k].root]);
    if c != run[k].root {
      AllBelowRoot(run[k], c);
      assert FamilyOk(run[k].actors[c], run[k].actors[run[k].actors[c].parent.value]);
      BarrenSubtreeIsDead(run[k], c, run[k].root, run[k].actors[c].depth);
      DeadToldEveryone(run[k], c);
    }
  }
}
