/**
 * Work pulling under any scheduler: it is never stuck, and every step of every run brings the end
 * closer by one, so that every run which goes on as long as it can processes everything and stops.
 */
module WorkPullingEnds {
  import opened Prelude
  import opened WorkPulling

  /** How many steps a worker still causes, apart from those for documents on the stack. */
  ghost function Ahead(s: State, i: nat): nat
    requires i < |s.workers|
  {
    var w := s.workers[i];
    (if w.watched then 0 else 1) +
    match w.status
    case Starting => 5
    case Waiting => if Request(i) in s.inbox then 4 else if w.mailbox != [] && w.mailbox[0].Job? then 5 else 3
    case Stopping => 2
    case Dead => if i in s.handled then 0 else 1
  }

  ghost function AllAhead(s: State, n: nat): nat
    requires n <= |s.workers|
  {
    if n == 0 then 0 else AllAhead(s, n - 1) + Ahead(s, n - 1)
  }

  /** How many steps are left. */
  ghost function Left(count: nat, s: State): int {
    7 * (count - |s.workers|) + AllAhead(s, |s.workers|) + 2 * s.left + if s.manager.Spawning? then 1 else 0
  }

  lemma {:induction false} SameAhead(s: State, s': State, n: nat)
    requires n <= |s.workers| && n <= |s'.workers|
    requires forall j | 0 <= j < n :: Ahead(s', j) == Ahead(s, j)
    ensures AllAhead(s', n) == AllAhead(s, n)
    decreases n
  {
    if n > 0 {
      SameAhead(s, s', n - 1);
    }
  }

  /** Only one worker's share changes. */
  lemma {:induction false} OneAhead(s: State, s': State, n: nat, i: nat)
    requires i < n <= |s.workers| && n <= |s'.workers|
    requires forall j | 0 <= j < n && j != i :: Ahead(s', j) == Ahead(s, j)
    ensures AllAhead(s', n) == AllAhead(s, n) - Ahead(s, i) + Ahead(s', i)
    decreases n
  {
    if i == n - 1 {
      SameAhead(s, s', n - 1);
    } else {
      OneAhead(s, s', n - 1, i);
    }
  }

  /** A step that concerns one worker: its own record, and inbox items of that worker only. */
  ghost predicate Concerns(s: State, s': State, i: nat) {
    && i < |s.workers| == |s'.workers|
    && (forall j | 0 <= j < |s.workers| && j != i :: s'.workers[j] == s.workers[j])
    && (forall j | j != i :: Request(j) in s'.inbox <==> Request(j) in s.inbox)
    && (forall j | j != i :: j in s'.handled <==> j in s.handled)
  }

  lemma ConcernsOne(s: State, s': State, i: nat)
    requires Concerns(s, s', i)
    ensures AllAhead(s', |s.workers|) == AllAhead(s, |s.workers|) - Ahead(s, i) + Ahead(s', i)
  {
    OneAhead(s, s', |s.workers|, i);
  }

  /** While a worker is not dead, the manager has not stopped. */
  lemma StillManaged(documents: nat, count: nat, s: State, i: nat)
    requires Inv(documents, count, s) && i < |s.workers| && !s.workers[i].status.Dead?
    ensures !s.manager.Stopped?
  {
    assert WorkerOk(s, i);
  }

  lemma PostedItem(inbox: seq<Incoming>, item: Incoming, other: Incoming)
    ensures other in inbox + [item] <==> other in inbox || other == item
  {
  }

  lemma WorkerStepCounts(documents: nat, count: nat, s: State, act: Action)
    requires Inv(documents, count, s) && Enabled(count, s, act)
    requires act.WorkerInit? || act.WorkerTakes? || act.WorkerEnds?
    ensures Left(count, Next(count, s, act)) == Left(count, s) - 1
  {
    var s' := Next(count, s, act);
    assert WorkerOk(s, act.i);
    StillManaged(documents, count, s, act.i);
    assert Concerns(s, s', act.i) by {
      forall j | j != act.i ensures Request(j) in s'.inbox <==> Request(j) in s.inbox {
        assert s'.inbox == s.inbox || s'.inbox == s.inbox + [s'.inbox[|s.inbox|]];
      }
    }
    ConcernsOne(s, s', act.i);
    assert act.WorkerInit? ==> s'.inbox[|s.inbox|] == Request(act.i);
    if act.WorkerTakes? && s.workers[act.i].mailbox[0].Job? {
      assert s'.inbox[|s.inbox|] == Request(act.i);
    }
  }

  lemma RequestCounts(documents: nat, count: nat, s: State, i: nat)
    requires Inv(documents, count, s) && Enabled(count, s, ManagerTakes) && s.inbox[0] == Request(i)
    ensures Left(count, Next(count, s, ManagerTakes)) == Left(count, s) - 1
  {
    var s' := Next(count, s, ManagerTakes);
    assert WorkerOk(s, i);
    forall j ensures Request(j) in s'.inbox <==> Request(j) in s.inbox && j != i {
      TailWithoutHead(s.inbox, Request(j));
    }
    assert Concerns(s, s', i);
    ConcernsOne(s, s', i);
  }

  lemma TerminatedCounts(documents: nat, count: nat, s: State, i: nat)
    requires Inv(documents, count, s) && Enabled(count, s, ManagerTakes) && s.inbox[0] == Terminated(i)
    ensures Left(count, Next(count, s, ManagerTakes)) == Left(count, s) - 1
  {
    var s' := Next(count, s, ManagerTakes);
    assert WorkerOk(s, i);
    forall j ensures Request(j) in s'.inbox <==> Request(j) in s.inbox {
      TailWithoutHead(s.inbox, Request(j));
    }
    assert Concerns(s, s', i);
    ConcernsOne(s, s', i);
  }

  lemma SetupCounts(documents: nat, count: nat, s: State, act: Action)
    requires Inv(documents, count, s) && Enabled(count, s, act)
    requires act.SpawnWorker? || act.WatchWorker? || act.InitDone?
    ensures Left(count, Next(count, s, act)) == Left(count, s) - 1
  {
    var s' := Next(count, s, act);
    var n := |s.workers|;
    if act.WatchWorker? {
      forall j ensures Request(j) in s'.inbox <==> Request(j) in s.inbox {
        PostedItem(s.inbox, Terminated(n - 1), Request(j));
      }
      assert Concerns(s, s', n - 1);
      ConcernsOne(s, s', n - 1);
    } else {
      forall j | 0 <= j < n ensures Ahead(s', j) == Ahead(s, j) {
        assert s'.workers[j] == s.workers[j] && s'.inbox == s.inbox;
      }
      SameAhead(s, s', n);
      assert act.SpawnWorker? ==> AllAhead(s', n + 1) == AllAhead(s', n) + 6;
    }
  }

  lemma StepCounts(documents: nat, count: nat, s: State, act: Action)
    requires Inv(documents, count, s) && Enabled(count, s, act)
    ensures Left(count, Next(count, s, act)) == Left(count, s) - 1
  {
    match act
    case ManagerTakes =>
      if s.inbox[0].Request? {
        RequestCounts(documents, count, s, s.inbox[0].worker);
      } else {
        TerminatedCounts(documents, count, s, s.inbox[0].worker);
      }
    case WorkerInit(_) => WorkerStepCounts(documents, count, s, act);
    case WorkerTakes(_) => WorkerStepCounts(documents, count, s, act);
    case WorkerEnds(_) => WorkerStepCounts(documents, count, s, act);
    case _ => SetupCounts(documents, count, s, act);
  }

  /** Every run, whatever the schedule, has used up one step per step: none is longer than the sum. */
  lemma {:induction false} EveryRunIsBounded(documents: nat, count: nat, run: seq<State>, acts: seq<Action>, k: nat)
    requires count > 0 && IsRun(documents, count, run, acts) && k < |run|
    ensures k + Left(count, run[k]) == 7 * count + 2 * documents + 1
    ensures k <= 7 * count + 2 * documents + 1
  {
    if k > 0 {
      EveryRunIsBounded(documents, count, run, acts, k - 1);
      RunCounts(documents, count, run, acts, k - 1);
    }
    NothingBelowZero(documents, count, run, acts, k);
  }

  lemma RunCounts(documents: nat, count: nat, run: seq<State>, acts: seq<Action>, k: nat)
    requires count > 0 && IsRun(documents, count, run, acts) && k < |acts|
    ensures Left(count, run[k + 1]) == Left(count, run[k]) - 1
  {
    RunInv(documents, count, run, acts, k);
    StepCounts(documents, count, run[k], acts[k]);
  }

  lemma NothingBelowZero(documents: nat, count: nat, run: seq<State>, acts: seq<Action>, k: nat)
    requires count > 0 && IsRun(documents, count, run, acts) && k < |run|
    ensures Left(count, run[k]) >= 0
  {
    RunInv(documents, count, run, acts, k);
  }

  // ----- never stuck

  /** Fewer numbers than the bound leave one out. */
  lemma {:induction false} OneMissing(numbers: set<nat>, bound: nat) returns (i: nat)
    requires |numbers| < bound
    ensures i < bound && i !in numbers
  {
    if bound - 1 !in numbers {
      i := bound - 1;
    } else {
      i := OneMissing(numbers - {bound - 1}, bound - 1);
    }
  }

  /** A worker whose signal was not handled can take a step, or something of it is in the manager's inbox. */
  lemma WorkerMoves(documents: nat, count: nat, s: State, i: nat) returns (act: Action)
    requires Inv(documents, count, s) && s.manager.Managing? && i < count && i !in s.handled
    ensures Enabled(count, s, act)
  {
    assert WorkerOk(s, i);
    var w := s.workers[i];
    if w.status.Starting? {
      act := WorkerInit(i);
    } else if w.status.Waiting? && w.mailbox != [] {
      act := WorkerTakes(i);
    } else if w.status.Stopping? {
      act := WorkerEnds(i);
    } else {
      assert Request(i) in s.inbox || Terminated(i) in s.inbox;
      act := ManagerTakes;
    }
  }

  /** Unless the manager has stopped, somebody can take a step. */
  lemma NeverStuck(documents: nat, count: nat, run: seq<State>, acts: seq<Action>, k: nat) returns (act: Action)
    requires count > 0 && IsRun(documents, count, run, acts) && k < |run| && !run[k].manager.Stopped?
    ensures Enabled(count, run[k], act)
  {
    RunInv(documents, count, run, acts, k);
    var s := run[k];
    if s.manager.Managing? {
      var i := OneMissing(s.handled, count);
      act := WorkerMoves(documents, count, s, i);
    } else if s.workers != [] && !s.workers[|s.workers| - 1].watched {
      act := WatchWorker;
    } else if |s.workers| < count {
      act := SpawnWorker;
    } else {
      act := InitDone;
    }
  }

  /**
   * A run that goes on as long as it can ends with every document processed exactly once, every worker
   * dead and the manager stopped, after seven steps per worker, two per document and one.
   */
  lemma EveryRunCompletes(documents: nat, count: nat, run: seq<State>, acts: seq<Action>)
    requires count > 0 && IsRun(documents, count, run, acts)
    requires forall act :: !Enabled(count, run[|acts|], act)
    ensures run[|acts|].manager.Stopped? && |acts| == 7 * count + 2 * documents + 1
    ensures multiset(run[|acts|].processed) == multiset(seq(documents, d => d))
  {
    var s := run[|acts|];
    if !s.manager.Stopped? {
      var act := NeverStuck(documents, count, run, acts, |acts|);
      assert false;
    }
    RunInv(documents, count, run, acts, |acts|);
    EveryRunIsBounded(documents, count, run, acts, |acts|);
    NothingAhead(documents, count, s, |s.workers|);
    EveryDocumentOnce(documents, count, run, acts, |acts|);
    SameElements(s.processed, documents);
  }

  /** Once the manager has stopped, nothing is left to do. */
  lemma {:induction false} NothingAhead(documents: nat, count: nat, s: State, n: nat)
    requires count > 0 && Inv(documents, count, s) && s.manager.Stopped? && n <= |s.workers|
    ensures AllAhead(s, n) == 0 && s.left == 0
    decreases n
  {
    assert WorkerOk(s, 0);
    if n > 0 {
      assert WorkerOk(s, n - 1);
      NothingAhead(documents, count, s, n - 1);
    }
  }

  lemma SameElements(processed: seq<nat>, documents: nat)
    requires forall d | 0 <= d < documents :: d in processed
    requires forall j | 0 <= j < |processed| :: processed[j] < documents
    requires forall j, l | 0 <= j < l < |processed| :: processed[j] != processed[l]
    ensures multiset(processed) == multiset(seq(documents, d => d))
  {
    var all := seq(documents, d => d);
    forall x: nat ensures multiset(processed)[x] == multiset(all)[x] {
      CountsOnce(processed, x);
      CountsOnce(all, x);
      if x < documents {
        assert all[x] == x;
      }
    }
  }
}
