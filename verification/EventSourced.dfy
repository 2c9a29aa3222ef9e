/**
 * The event-sourced actor as user code sees it, and the pure folds the run loop is made of:
 * applying events live, encoding them for the store and replaying a page of stored ones.
 */
module EventSourced {
  import opened Prelude
  import opened SeqNos
  import opened Versioned

  type Command(!new)
  type Event(!new)
  type State(!new)
  type Snapshot(!new)
  type View(!new)
  type Continuation(!new)

  datatype Effect = Effect(events: seq<Event>, stop: bool, thens: seq<Continuation>)

  /**
   * The user's code. `handle`, `recovered` and `offers` are relations because they may consult the
   * world; `init` and `apply` are the pure seed and the pure transition the documentation demands.
   * `view` is the part of the state that events determine: `recovered` may change the rest, e.g.
   * references to freshly spawned children.
   */
  datatype Actor = Actor(
    init: State,
    apply: (State, Event) -> State,
    initFromSnapshot: Snapshot -> State,
    offers: (State, Snapshot) -> bool,
    recovered: (State, State) -> bool,
    handle: (Command, State, Effect) -> bool,
    view: State -> View,
    events: Schema<Event>,
    snapshots: Schema<Snapshot>)

  /** What the documentation asks of user code and of the codec. */
  ghost predicate Lawful(a: Actor) {
    && (forall s, t, e | a.view(s) == a.view(t) :: a.view(a.apply(s, e)) == a.view(a.apply(t, e)))
    && (forall s, t | a.recovered(s, t) :: a.view(t) == a.view(s))
    && (forall s, n | a.offers(s, n) :: a.view(a.initFromSnapshot(n)) == a.view(s))
    && RoundTrips(a.events)
    && RoundTrips(a.snapshots)
  }

  datatype StoredEvent = StoredEvent(seqNo: SeqNo, event: Encoded)

  datatype StoredSnapshot = StoredSnapshot(nextSeqNo: SeqNo, snapshot: Encoded)

  datatype ReplayError = Undecodable(error: DecodeError) | Gap(seqNo: SeqNo, expected: SeqNo)

  // ----- the run loop's folds

  function ApplyEvents(a: Actor, state: State, events: seq<Event>): State {
    if events == [] then state else ApplyEvents(a, a.apply(state, events[0]), events[1..])
  }

  function EncodeEvents(a: Actor, events: seq<Event>): Option<seq<Encoded>> {
    if events == [] then Some([])
    else
      match Encode(a.events, events[0])
      case None => None
      case Some(first) =>
        match EncodeEvents(a, events[1..])
        case None => None
        case Some(rest) => Some([first] + rest)
  }

  function ReplayPage(a: Actor, state: State, next: SeqNo, page: seq<StoredEvent>)
    : Result<(State, SeqNo), ReplayError>
    decreases page
  {
    if page == [] then Ok((state, next))
    else if page[0].seqNo != next then Err(Gap(page[0].seqNo, next))
    else
      match DecodeVersioned(a.events, page[0].event)
      case Err(error) => Err(Undecodable(error))
      case Ok(event) => ReplayPage(a, a.apply(state, event), Succ(next), page[1..])
  }

  /** The state a stream of events stands for. */
  ghost function Fold(a: Actor, events: seq<Event>): State {
    ApplyEvents(a, a.init, events)
  }

  // ----- what stored rows mean

  /** The encoded rows decode, one by one, to the events. */
  ghost predicate Decodes(a: Actor, rows: seq<Encoded>, events: seq<Event>) {
    && |rows| == |events|
    && forall i | 0 <= i < |rows| :: DecodeVersioned(a.events, rows[i]) == Ok(events[i])
  }

  /** The rows are stored gaplessly from position `at` on and decode to the events. */
  ghost predicate StoredAt(a: Actor, at: nat, stored: seq<StoredEvent>, events: seq<Event>) {
    && |stored| == |events|
    && forall i | 0 <= i < |stored| ::
         && stored[i].seqNo == at + i
         && DecodeVersioned(a.events, stored[i].event) == Ok(events[i])
  }

  // ----- folding lemmas

  lemma {:induction false} ApplyConcat(a: Actor, state: State, xs: seq<Event>, ys: seq<Event>)
    ensures ApplyEvents(a, state, xs + ys) == ApplyEvents(a, ApplyEvents(a, state, xs), ys)
    decreases xs
  {
    if xs == [] {
      assert xs + ys == ys;
    } else {
      assert (xs + ys)[1..] == xs[1..] + ys;
      ApplyConcat(a, a.apply(state, xs[0]), xs[1..], ys);
    }
  }

  /** The fold is the seed for no events, and each further event is applied to the fold before it. */
  lemma FoldIsStepwise(a: Actor, events: seq<Event>, event: Event)
    ensures Fold(a, []) == a.init
    ensures Fold(a, events + [event]) == a.apply(Fold(a, events), event)
  {
    ApplyConcat(a, a.init, events, [event]);
    assert ApplyEvents(a, Fold(a, events), [event]) == ApplyEvents(a, a.apply(Fold(a, events), event), []);
  }

  /** States with one view stay so under the same events. */
  lemma {:induction false} ApplyRespectsView(a: Actor, s: State, t: State, events: seq<Event>)
    requires Lawful(a) && a.view(s) == a.view(t)
    ensures a.view(ApplyEvents(a, s, events)) == a.view(ApplyEvents(a, t, events))
    decreases events
  {
    if events != [] {
      ApplyRespectsView(a, a.apply(s, events[0]), a.apply(t, events[0]), events[1..]);
    }
  }

  /** What `encode_events` writes decodes to exactly the events, in order. */
  lemma {:induction false} EncodedEventsDecode(a: Actor, events: seq<Event>)
    requires Lawful(a) && EncodeEvents(a, events).Some?
    ensures Decodes(a, EncodeEvents(a, events).value, events)
    decreases events
  {
    if events != [] {
      EncodeDecode(a.events, events[0]);
      EncodedEventsDecode(a, events[1..]);
    }
  }

  /** `encode_events` succeeds exactly when every single event is encodable. */
  lemma {:induction false} EncodeEventsOutcome(a: Actor, events: seq<Event>)
    ensures EncodeEvents(a, events).Some? <==> forall i | 0 <= i < |events| :: Encode(a.events, events[i]).Some?
    ensures EncodeEvents(a, events).Some? ==> |EncodeEvents(a, events).value| == |events|
    decreases events
  {
    if events != [] {
      EncodeEventsOutcome(a, events[1..]);
      assert forall i | 0 < i < |events| :: events[i] == events[1..][i - 1];
    }
  }

  /** A page that does not replay fails at its first gap or undecodable event, and says which. */
  lemma {:induction false} ReplayPageError(a: Actor, state: State, next: SeqNo, page: seq<StoredEvent>) returns (i: nat)
    requires next + |page| <= U64_MAX && ReplayPage(a, state, next, page).Err?
    ensures i < |page|
    ensures forall j | 0 <= j < i :: page[j].seqNo == next + j && DecodeVersioned(a.events, page[j].event).Ok?
    ensures var decoded := DecodeVersioned(a.events, page[i].event);
      if page[i].seqNo != next + i then ReplayPage(a, state, next, page) == Err(Gap(page[i].seqNo, next + i))
      else decoded.Err? && ReplayPage(a, state, next, page) == Err(Undecodable(decoded.error))
    decreases page
  {
    i := 0;
    if page[0].seqNo == next && DecodeVersioned(a.events, page[0].event).Ok? {
      var event := DecodeVersioned(a.events, page[0].event).value;
      var rest := ReplayPageError(a, a.apply(state, event), Succ(next), page[1..]);
      assert forall j | 0 < j < |page| :: page[j] == page[1..][j - 1];
      i := rest + 1;
    }
  }

  /** Replaying a page succeeds exactly when the page is gapless from the expected position and decodes. */
  lemma {:induction false} ReplayPageOutcome(
      a: Actor, state: State, next: SeqNo, page: seq<StoredEvent>)
    requires next + |page| <= U64_MAX
    ensures ReplayPage(a, state, next, page).Ok? <==> exists events :: StoredAt(a, next, page, events)
    decreases page
  {
    if page == [] {
      assert StoredAt(a, next, page, []);
    } else if page[0].seqNo == next && DecodeVersioned(a.events, page[0].event).Ok? {
      var event := DecodeVersioned(a.events, page[0].event).value;
      var n, tail := Succ(next), page[1..];
      ReplayPageOutcome(a, a.apply(state, event), n, tail);
      if rest :| StoredAt(a, n, tail, rest) {
        assert StoredAt(a, next, page, [event] + rest) by {
          forall i | 0 < i < |page| ensures page[i] == page[1..][i - 1] { }
        }
      }
      if events :| StoredAt(a, next, page, events) {
        assert StoredAt(a, n, tail, events[1..]);
      }
    } else {
      assert forall events :: StoredAt(a, next, page, events) ==> page[0].seqNo == next + 0;
    }
  }

  /** Replaying a page runs exactly the `apply` calls the live actor ran on those events. */
  lemma {:induction false} ReplayPageApplies(
      a: Actor, state: State, next: SeqNo, page: seq<StoredEvent>, events: seq<Event>)
    requires next + |page| <= U64_MAX
    requires StoredAt(a, next, page, events)
    ensures ReplayPage(a, state, next, page) == Ok((ApplyEvents(a, state, events), next + |page|))
    decreases page
  {
    if page != [] {
      assert page[0].seqNo == next + 0;
      assert StoredAt(a, next + 1, page[1..], events[1..]);
      ReplayPageApplies(a, a.apply(state, events[0]), next + 1, page[1..], events[1..]);
    }
  }
}
