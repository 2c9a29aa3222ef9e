/**
 * The work-pulling example as a closed protocol: a manager with a stack of documents, workers with
 * mailboxes of capacity one that request the next document whenever they are ready.
 */
module WorkPulling {
  import opened Prelude

  datatype Incoming = Request(worker: nat) | Terminated(worker: nat)

  /** A document is named by its position in the manager's list. */
  datatype Reply = Job(document: nat) | Drained

  datatype Status = Starting | Waiting | Stopping | Dead

  datatype Worker = Worker(status: Status, watched: bool, mailbox: seq<Reply>)

  datatype Manager = Spawning | Managing | Stopped

  /**
   * `left` documents are still on the stack, since it is popped from the end; `owner` records to
   * whom a document was given; `refused` counts replies a worker's mailbox did not take.
   */
  datatype State = State(
    manager: Manager,
    workers: seq<Worker>,
    counter: int,
    inbox: seq<Incoming>,
    left: nat,
    processed: seq<nat>,
    owner: map<nat, nat>,
    handled: set<nat>,
    refused: nat)

  datatype Action =
    | SpawnWorker
    | WatchWorker
    | InitDone
    | ManagerTakes
    | WorkerInit(i: nat)
    | WorkerTakes(i: nat)
    | WorkerEnds(i: nat)

  const CAPACITY := 1

  function Start(documents: nat): State {
    State(Spawning, [], 0, [], documents, [], map[], {}, 0)
  }

  predicate Enabled(count: nat, s: State, act: Action) {
    match act
    case SpawnWorker =>
      s.manager.Spawning? && |s.workers| < count && (s.workers != [] ==> s.workers[|s.workers| - 1].watched)
    case WatchWorker => s.manager.Spawning? && s.workers != [] && !s.workers[|s.workers| - 1].watched
    case InitDone =>
      s.manager.Spawning? && |s.workers| == count && (s.workers != [] ==> s.workers[|s.workers| - 1].watched)
    case ManagerTakes =>
      s.manager.Managing? && s.inbox != [] && s.inbox[0].worker < |s.workers|
    case WorkerInit(i) => i < |s.workers| && s.workers[i].status.Starting?
    case WorkerTakes(i) => i < |s.workers| && s.workers[i].status.Waiting? && s.workers[i].mailbox != []
    case WorkerEnds(i) => i < |s.workers| && s.workers[i].status.Stopping?
  }

  /** `reply`: an ordinary send, refused by a full or disconnected mailbox. */
  function Replied(s: State, i: nat, reply: Reply): State
    requires i < |s.workers|
  {
    var w := s.workers[i];
    if |w.mailbox| < CAPACITY && !w.status.Dead? && !w.status.Stopping? then
      s.(workers := s.workers[i := w.(mailbox := w.mailbox + [reply])])
    else s.(refused := s.refused + 1)
  }

  function Posted(s: State, item: Incoming): State {
    if s.manager.Stopped? then s else s.(inbox := s.inbox + [item])
  }

  function AfterRequest(s: State, i: nat): State
    requires i < |s.workers|
  {
    if s.left > 0 then
      Replied(s, i, Job(s.left - 1)).(left := s.left - 1, owner := s.owner[s.left - 1 := i])
    else Replied(s, i, Drained)
  }

  function AfterTerminated(s: State, i: nat): State {
    s.(counter := s.counter - 1,
       handled := s.handled + {i},
       manager := if s.counter - 1 > 0 then Managing else Stopped)
  }

  function AfterWorkerTakes(s: State, i: nat): State
    requires i < |s.workers| && s.workers[i].mailbox != []
  {
    var w := s.workers[i];
    match w.mailbox[0]
    case Job(d) =>
      Posted(s.(workers := s.workers[i := w.(mailbox := w.mailbox[1..])], processed := s.processed + [d]), Request(i))
    case Drained => s.(workers := s.workers[i := w.(mailbox := w.mailbox[1..], status := Stopping)])
  }

  function Next(count: nat, s: State, act: Action): State
    requires Enabled(count, s, act)
  {
    match act
    case SpawnWorker => s.(workers := s.workers + [Worker(Starting, false, [])])
    case WatchWorker =>
      var i := |s.workers| - 1;
      var s1 := s.(workers := s.workers[i := s.workers[i].(watched := true)]);
      if s.workers[i].status.Dead? then Posted(s1, Terminated(i)) else s1
    case InitDone => s.(manager := Managing, counter := count)
    case ManagerTakes =>
      var s1 := s.(inbox := s.inbox[1..]);
      (match s.inbox[0]
       case Request(i) => AfterRequest(s1, i)
       case Terminated(i) => AfterTerminated(s1, i))
    case WorkerInit(i) => Posted(s.(workers := s.workers[i := s.workers[i].(status := Waiting)]), Request(i))
    case WorkerTakes(i) => AfterWorkerTakes(s, i)
    case WorkerEnds(i) =>
      var s1 := s.(workers := s.workers[i := s.workers[i].(status := Dead)]);
      if s.workers[i].watched then Posted(s1, Terminated(i)) else s1
  }

  ghost predicate IsRun(documents: nat, count: nat, run: seq<State>, acts: seq<Action>) {
    && |run| == |acts| + 1
    && run[0] == Start(documents)
    && forall k | 0 <= k < |acts| :: Enabled(count, run[k], acts[k]) && run[k + 1] == Next(count, run[k], acts[k])
  }

  // ----- the invariant

  /** Exactly one of a request, a reply or nothing more to come is in flight for the worker. */
  ghost predicate WorkerOk(s: State, i: nat)
    requires i < |s.workers|
  {
    var w := s.workers[i];
    && (Terminated(i) in s.inbox ==> w.status.Dead? && w.watched && i !in s.handled)
    && (i in s.handled ==> w.status.Dead?)
    && (w.status.Dead? && w.watched && !s.manager.Stopped? ==> Terminated(i) in s.inbox || i in s.handled)
    && (if w.status.Waiting? then |w.mailbox| == if Request(i) in s.inbox then 0 else 1
        else w.mailbox == [] && Request(i) !in s.inbox)
    && ((w.mailbox != [] && w.mailbox[0].Drained?) || w.status.Stopping? || w.status.Dead? ==> s.left == 0)
  }

  ghost predicate InboxOk(s: State) {
    && (forall k | 0 <= k < |s.inbox| :: s.inbox[k].worker < |s.workers|)
    && (forall k, l | 0 <= k < l < |s.inbox| :: s.inbox[k] != s.inbox[l])
  }

  predicate Holds(w: Worker, d: nat) {
    w.mailbox != [] && w.mailbox[0] == Job(d)
  }

  /** The document is on the stack, or in its owner's mailbox, or processed. */
  ghost predicate DocumentOk(s: State, d: nat) {
    if d < s.left then d !in s.processed && d !in s.owner
    else
      && d in s.owner && s.owner[d] < |s.workers|
      && (Holds(s.workers[s.owner[d]], d) <==> d !in s.processed)
  }

  ghost predicate Owned(s: State, documents: nat) {
    forall i | 0 <= i < |s.workers| && s.workers[i].mailbox != [] && s.workers[i].mailbox[0].Job? ::
      var d := s.workers[i].mailbox[0].document;
      s.left <= d < documents && d in s.owner && s.owner[d] == i
  }

  ghost predicate ManagerOk(count: nat, s: State) {
    && |s.workers| <= count
    && (forall i | i in s.handled :: i < count)
    && (!s.manager.Spawning? ==> |s.workers| == count && s.counter == count - |s.handled| && AllWatched(s))
    && (s.manager.Spawning? ==> s.handled == {} && forall i | 0 <= i < |s.workers| - 1 :: s.workers[i].watched)
    && (s.manager.Managing? ==> s.counter > 0)
    && (s.manager.Stopped? ==> forall i | 0 <= i < count :: i in s.handled)
  }

  ghost predicate AllWatched(s: State) {
    forall i | 0 <= i < |s.workers| :: s.workers[i].watched
  }

  ghost predicate Inv(documents: nat, count: nat, s: State) {
    && s.refused == 0
    && ManagerOk(count, s)
    && InboxOk(s)
    && (forall i | 0 <= i < |s.workers| :: WorkerOk(s, i))
    && Owned(s, documents)
    && s.left <= documents
    && (forall d | 0 <= d < documents :: DocumentOk(s, d))
    && (forall k | 0 <= k < |s.processed| :: s.processed[k] < documents)
    && (forall k, l | 0 <= k < l < |s.processed| :: s.processed[k] != s.processed[l])
  }

  lemma SetupStep(documents: nat, count: nat, s: State, act: Action)
    requires count > 0 && Inv(documents, count, s) && Enabled(count, s, act)
    requires act.SpawnWorker? || act.InitDone?
    ensures Inv(documents, count, Next(count, s, act))
  {
    var s' := Next(count, s, act);
    forall i | 0 <= i < |s'.workers| ensures WorkerOk(s', i) {
      if i < |s.workers| {
        assert WorkerOk(s, i);
      } else {
        assert forall k | 0 <= k < |s.inbox| :: s.inbox[k].worker < i;
      }
    }
    forall d | 0 <= d < documents ensures DocumentOk(s', d) {
      assert DocumentOk(s, d);
    }
  }

  lemma WatchStep(documents: nat, count: nat, s: State)
    requires count > 0 && Inv(documents, count, s) && Enabled(count, s, WatchWorker)
    ensures Inv(documents, count, Next(count, s, WatchWorker))
  {
    var s' := Next(count, s, WatchWorker);
    assert WorkerOk(s, |s.workers| - 1);
    OtherWorkers(s, s', |s.workers| - 1);
    forall d | 0 <= d < documents ensures DocumentOk(s', d) {
      assert DocumentOk(s, d);
    }
  }

  /** What one worker's step leaves alone. */
  lemma OtherWorkers(s: State, s': State, i: nat)
    requires i < |s.workers| == |s'.workers| && s'.left == s.left && s'.handled == s.handled && s'.manager == s.manager
    requires forall j | 0 <= j < |s.workers| && j != i :: s'.workers[j] == s.workers[j]
    requires s'.inbox == s.inbox || (
               && |s'.inbox| == |s.inbox| + 1
               && s'.inbox[..|s.inbox|] == s.inbox
               && s'.inbox[|s.inbox|].worker == i)
    requires forall j | 0 <= j < |s.workers| :: WorkerOk(s, j)
    ensures forall j | 0 <= j < |s.workers| && j != i :: WorkerOk(s', j)
  {
    forall j | 0 <= j < |s.workers| && j != i ensures WorkerOk(s', j) {
      assert WorkerOk(s, j);
      assert s'.inbox == s.inbox || s'.inbox == s.inbox + [s'.inbox[|s.inbox|]];
    }
  }

  lemma WorkerStep(documents: nat, count: nat, s: State, act: Action)
    requires count > 0 && Inv(documents, count, s) && Enabled(count, s, act)
    requires act.WorkerInit? || act.WorkerEnds?
    ensures Inv(documents, count, Next(count, s, act))
  {
    var s' := Next(count, s, act);
    assert WorkerOk(s, act.i);
    OtherWorkers(s, s', act.i);
    forall d | 0 <= d < documents ensures DocumentOk(s', d) {
      assert DocumentOk(s, d);
    }
  }

  lemma TakeStep(documents: nat, count: nat, s: State, i: nat)
    requires count > 0 && Inv(documents, count, s) && Enabled(count, s, WorkerTakes(i))
    ensures Inv(documents, count, AfterWorkerTakes(s, i))
  {
    var s' := AfterWorkerTakes(s, i);
    assert WorkerOk(s, i);
    OtherWorkers(s, s', i);
    forall d | 0 <= d < documents ensures DocumentOk(s', d) {
      assert DocumentOk(s, d);
    }
    var reply := s.workers[i].mailbox[0];
    assert s.workers[i].mailbox == [reply];
    if reply.Job? {
      assert DocumentOk(s, reply.document);
    }
  }

  lemma RequestStep(documents: nat, count: nat, s: State, i: nat)
    requires count > 0 && Inv(documents, count, s) && Enabled(count, s, ManagerTakes) && s.inbox[0] == Request(i)
    ensures Inv(documents, count, AfterRequest(s.(inbox := s.inbox[1..]), i))
  {
    var s' := AfterRequest(s.(inbox := s.inbox[1..]), i);
    assert WorkerOk(s, i);
    forall j | 0 <= j < |s.workers| ensures WorkerOk(s', j) {
      assert WorkerOk(s, j);
      TailWithoutHead(s.inbox, Request(j));
      TailWithoutHead(s.inbox, Terminated(j));
    }
    forall d | 0 <= d < documents ensures DocumentOk(s', d) {
      assert DocumentOk(s, d);
    }
  }

  lemma TerminatedStep(documents: nat, count: nat, s: State, i: nat)
    requires count > 0 && Inv(documents, count, s) && Enabled(count, s, ManagerTakes) && s.inbox[0] == Terminated(i)
    ensures Inv(documents, count, AfterTerminated(s.(inbox := s.inbox[1..]), i))
  {
    var s' := AfterTerminated(s.(inbox := s.inbox[1..]), i);
    assert WorkerOk(s, i);
    forall j | 0 <= j < |s.workers| ensures WorkerOk(s', j) {
      assert WorkerOk(s, j);
      TailWithoutHead(s.inbox, Request(j));
      TailWithoutHead(s.inbox, Terminated(j));
    }
    forall d | 0 <= d < documents ensures DocumentOk(s', d) {
      assert DocumentOk(s, d);
    }
    if s'.manager.Stopped? {
      FillsRange(s'.handled, count);
    }
  }

  lemma StepKeepsInv(documents: nat, count: nat, s: State, act: Action)
    requires count > 0 && Inv(documents, count, s) && Enabled(count, s, act)
    ensures Inv(documents, count, Next(count, s, act))
  {
    match act
    case WorkerTakes(i) => TakeStep(documents, count, s, i);
    case ManagerTakes =>
      if s.inbox[0].Request? {
        RequestStep(documents, count, s, s.inbox[0].worker);
      } else {
        TerminatedStep(documents, count, s, s.inbox[0].worker);
      }
    case WorkerInit(_) => WorkerStep(documents, count, s, act);
    case WorkerEnds(_) => WorkerStep(documents, count, s, act);
    case WatchWorker => WatchStep(documents, count, s);
    case _ => SetupStep(documents, count, s, act);
  }

  // ----- whole runs

  lemma {:induction false} RunInv(documents: nat, count: nat, run: seq<State>, acts: seq<Action>, k: nat)
    requires count > 0 && IsRun(documents, count, run, acts) && k < |run|
    ensures Inv(documents, count, run[k])
  {
    if k > 0 {
      RunInv(documents, count, run, acts, k - 1);
      StepKeepsInv(documents, count, run[k - 1], acts[k - 1]);
    }
  }

  /**
   * For each worker at most one request, job or other reply is in flight. So a mailbox of capacity
   * one never refuses anything; and the manager's counter never underflows.
   */
  lemma NothingIsRefused(documents: nat, count: nat, run: seq<State>, acts: seq<Action>, k: nat, i: nat)
    requires count > 0 && IsRun(documents, count, run, acts) && k < |run| && i < |run[k].workers|
    ensures run[k].refused == 0
    ensures multiset(run[k].inbox)[Request(i)] + |run[k].workers[i].mailbox| <= CAPACITY
    ensures run[k].manager.Managing? ==> run[k].counter > 0
  {
    RunInv(documents, count, run, acts, k);
    assert WorkerOk(run[k], i);
    CountsOnce(run[k].inbox, Request(i));
  }

  /** When the manager stops, every document has been processed exactly once and no worker is left. */
  lemma EveryDocumentOnce(documents: nat, count: nat, run: seq<State>, acts: seq<Action>, k: nat)
    requires count > 0 && IsRun(documents, count, run, acts) && k < |run| && run[k].manager.Stopped?
    ensures forall d | 0 <= d < documents :: d in run[k].processed
    ensures forall j | 0 <= j < |run[k].processed| :: run[k].processed[j] < documents
    ensures forall j, l | 0 <= j < l < |run[k].processed| :: run[k].processed[j] != run[k].processed[l]
    ensures forall i | 0 <= i < |run[k].workers| :: run[k].workers[i].status.Dead?
  {
    RunInv(documents, count, run, acts, k);
    var s := run[k];
    forall i | 0 <= i < |s.workers| ensures s.workers[i].status.Dead? && s.workers[i].mailbox == [] && s.left == 0 {
      assert WorkerOk(s, i);
    }
    assert s.workers[0].status.Dead?;
    forall d | 0 <= d < documents ensures d in s.processed {
      assert DocumentOk(s, d);
    }
  }
}
