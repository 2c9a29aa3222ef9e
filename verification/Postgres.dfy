/**
 * The PostgreSQL append, for any number of racing writers of one persistence id: a check against
 * the rows committed when the statement began, then row-by-row inserts under the primary key that
 * become visible together at commit. It refines the atomic conditional append.
 */
module Postgres {
  import opened Prelude
  import opened SeqNos
  import opened Versioned
  import opened EventSourced
  import opened Fencing

  const I64_MAX: nat := 0x7FFF_FFFF_FFFF_FFFF

  // ----- preparing the statement

  datatype StoreFailure = SeqNoOutOfRange

  datatype Columns = Columns(
    seqNos: seq<nat>, manifests: seq<string>, schemaVersions: seq<nat>, payloads: seq<Payload>)

  /** What UNNEST makes of the four bound arrays. */
  function Unnest(c: Columns): seq<(nat, Encoded)>
    requires |c.seqNos| == |c.manifests| == |c.schemaVersions| == |c.payloads|
  {
    seq(|c.seqNos|, i requires 0 <= i < |c.seqNos| =>
      (c.seqNos[i], Encoded(c.manifests[i], c.schemaVersions[i], c.payloads[i])))
  }

  /** The bound arrays spell the events at consecutive positions, unless one leaves the BIGINT range. */
  method PrepareInsert(next: SeqNo, events: seq<Encoded>) returns (r: Result<Columns, StoreFailure>)
    ensures r.Ok? <==> next <= I64_MAX && (events != [] ==> next + |events| - 1 <= I64_MAX)
    ensures r.Ok? ==>
      var c := r.value;
      && |c.seqNos| == |c.manifests| == |c.schemaVersions| == |c.payloads| == |events|
      && Unnest(c) == seq(|events|, i requires 0 <= i < |events| => (next + i, events[i]))
  {
    if next > I64_MAX {
      return Err(SeqNoOutOfRange);
    }
    var seqNos, manifests, schemaVersions, payloads := [], [], [], [];
    for n := 0 to |events|
      invariant |seqNos| == |manifests| == |schemaVersions| == |payloads| == n
      invariant n > 0 ==> next + n - 1 <= I64_MAX
      invariant forall i | 0 <= i < n ::
        && seqNos[i] == next + i
        && Encoded(manifests[i], schemaVersions[i], payloads[i]) == events[i]
    {
      if n > I64_MAX || next + n > I64_MAX {
        return Err(SeqNoOutOfRange);
      }
      seqNos := seqNos + [next + n];
      manifests := manifests + [events[n].manifest];
      schemaVersions := schemaVersions + [events[n].schemaVersion];
      payloads := payloads + [events[n].payload];
    }
    r := Ok(Columns(seqNos, manifests, schemaVersions, payloads));
  }

  // ----- racing statements

  /** `Inserting` has passed its check; its first `done` rows occupy the index, uncommitted. */
  datatype Writer =
    | Submitted(next: nat, rows: seq<Encoded>)
    | Inserting(next: nat, rows: seq<Encoded>, done: nat)
    | Succeeded
    | Conflicted
    | Errored

  datatype Db = Db(table: map<nat, Encoded>, writers: map<nat, Writer>)

  datatype Action =
    | Submit(w: nat, at: nat, events: seq<Encoded>)
    | Check(w: nat, observed: nat)
    | InsertRow(w: nat)
    | Commit(w: nat, reported: bool)
    | Abort(w: nat)

  /** COALESCE(MAX(seq_no) + 1, 0). */
  ghost predicate IsNext(table: map<nat, Encoded>, n: nat) {
    if table == map[] then n == 0 else n > 0 && n - 1 in table && forall k | k in table :: k < n
  }

  /** The key is in the index for a row another writer has not committed yet. */
  ghost predicate HeldByOther(db: Db, w: nat, key: nat) {
    exists v :: v in db.writers && v != w && db.writers[v].Inserting? &&
      db.writers[v].next <= key < db.writers[v].next + db.writers[v].done
  }

  ghost predicate Enabled(db: Db, act: Action) {
    match act
    case Submit(w, at, events) =>
      w !in db.writers && at <= I64_MAX && at + |events| <= I64_MAX + 1
    case Check(w, observed) => w in db.writers && db.writers[w].Submitted? && IsNext(db.table, observed)
    case InsertRow(w) =>
      && w in db.writers && db.writers[w].Inserting? && db.writers[w].done < |db.writers[w].rows|
      && !HeldByOther(db, w, db.writers[w].next + db.writers[w].done)
    case Commit(w, _) =>
      w in db.writers && db.writers[w].Inserting? && db.writers[w].done == |db.writers[w].rows|
    case Abort(w) => w in db.writers && (db.writers[w].Submitted? || db.writers[w].Inserting?)
  }

  /** The rows under their primary keys. */
  function Keyed(next: nat, rows: seq<Encoded>): (m: map<nat, Encoded>)
    ensures forall k :: k in m <==> next <= k < next + |rows|
    ensures forall k | k in m :: m[k] == rows[k - next]
  {
    if rows == [] then map[]
    else Keyed(next, rows[..|rows| - 1])[next + |rows| - 1 := rows[|rows| - 1]]
  }

  ghost function To(db: Db, w: nat, writer: Writer): Db {
    db.(writers := db.writers[w := writer])
  }

  ghost function Next(db: Db, act: Action): Db
    requires Enabled(db, act)
  {
    match act
    case Submit(w, at, events) => To(db, w, Submitted(at, events))
    case Check(w, observed) =>
      var s := db.writers[w];
      To(db, w,
         if observed != s.next then Conflicted
         else if s.rows == [] then Succeeded
         else Inserting(s.next, s.rows, 0))
    case InsertRow(w) =>
      var s := db.writers[w];
      To(db, w, if s.next + s.done in db.table then Conflicted else s.(done := s.done + 1))
    case Commit(w, reported) =>
      var s := db.writers[w];
      To(db, w, if reported then Succeeded else Errored)
      .(table := db.table + Keyed(s.next, s.rows))
    case Abort(w) => To(db, w, Errored)
  }

  ghost predicate IsRun(run: seq<Db>, acts: seq<Action>) {
    && |run| == |acts| + 1
    && run[0] == Db(map[], map[])
    && forall i | 0 <= i < |acts| :: Enabled(run[i], acts[i]) && run[i + 1] == Next(run[i], acts[i])
  }

  // ----- the invariant

  /** The stored sequence numbers are exactly 0..n-1. */
  ghost predicate Gapless(table: map<nat, Encoded>, n: nat) {
    forall k: nat :: k in table <==> k < n
  }

  ghost predicate WriterInv(n: nat, writer: Writer) {
    match writer
    case Submitted(next, rows) => next + |rows| <= I64_MAX + 1
    case Inserting(next, rows, done) =>
      && next + |rows| <= I64_MAX + 1
      && done <= |rows| && rows != []
      && next <= n
      && (done > 0 ==> next == n)
    case _ => true
  }

  /** `n` rows are stored, and at most one writer occupies the positions behind them. */
  ghost predicate Inv(db: Db, n: nat) {
    && Gapless(db.table, n)
    && n <= I64_MAX + 1
    && (forall w | w in db.writers :: WriterInv(n, db.writers[w]))
    && (forall v, w | v in db.writers && w in db.writers && v != w && Ahead(db.writers[v]) :: !Ahead(db.writers[w]))
  }

  ghost predicate Ahead(writer: Writer) {
    writer.Inserting? && writer.done > 0
  }

  /** The stream a gapless table stands for. */
  ghost function Stream(table: map<nat, Encoded>, n: nat): seq<StoredEvent>
    requires Gapless(table, n) && n <= I64_MAX + 1
  {
    seq(n, i requires 0 <= i < n => StoredEvent(i, table[i]))
  }

  ghost function Grown(db: Db, act: Action, n: nat): nat
    requires Enabled(db, act)
  {
    if act.Commit? then n + |db.writers[act.w].rows| else n
  }

  lemma NextOfGapless(table: map<nat, Encoded>, n: nat, observed: nat)
    requires Gapless(table, n) && IsNext(table, observed)
    ensures observed == n
  {
    if table != map[] {
      var k :| k in table;
      assert n > 0 && n - 1 in table;
    } else {
      assert n > 0 ==> 0 in table;
    }
  }

  lemma InsertKeepsInv(db: Db, w: nat, n: nat)
    requires Inv(db, n) && Enabled(db, InsertRow(w))
    ensures Inv(Next(db, InsertRow(w)), n)
  {
    var s := db.writers[w];
    assert WriterInv(n, s);
    forall v | v in db.writers && v != w && Ahead(db.writers[v]) ensures s.next + s.done in db.table {
      assert WriterInv(n, db.writers[v]);
      assert s.done == 0;
      assert s.next == n ==> HeldByOther(db, w, n);
    }
  }

  lemma CommitKeepsInv(db: Db, w: nat, reported: bool, n: nat)
    requires Inv(db, n) && Enabled(db, Commit(w, reported))
    ensures Inv(Next(db, Commit(w, reported)), n + |db.writers[w].rows|)
  {
    assert WriterInv(n, db.writers[w]);
    assert Ahead(db.writers[w]);
    var db' := Next(db, Commit(w, reported));
    forall v | v in db'.writers ensures WriterInv(n + |db.writers[w].rows|, db'.writers[v]) && !Ahead(db'.writers[v]) {
      if v != w {
        assert WriterInv(n, db.writers[v]);
      }
    }
  }

  lemma StepKeepsInv(db: Db, act: Action, n: nat)
    requires Inv(db, n) && Enabled(db, act)
    ensures Inv(Next(db, act), Grown(db, act, n))
  {
    match act
    case InsertRow(w) => InsertKeepsInv(db, w, n);
    case Commit(w, reported) => CommitKeepsInv(db, w, reported, n);
    case Check(w, observed) =>
      NextOfGapless(db.table, n, observed);
      assert WriterInv(n, db.writers[w]);
    case _ =>
  }

  // ----- refinement

  /**
   * From `n` stored rows to `n'`, the step is one of the atomic conditional append: the stream changes
   * only by a commit, as a successful append changes it. The writer is told of a conflict if and only
   * if it is answered where the append conflicts, of a success if and only if its rows are committed
   * now or, without rows, where the append succeeds. Nobody else is told anything.
   */
  ghost predicate IsAtomic(db: Db, act: Action, db': Db, n: nat, n': nat) {
    && Inv(db, n) && Inv(db', n')
    && act.w in db'.writers
    && (forall v | v != act.w :: v in db'.writers <==> v in db.writers)
    && (forall v | v in db.writers && v != act.w :: db'.writers[v] == db.writers[v])
    && var before, after, answer := Stream(db.table, n), Stream(db'.table, n'), db'.writers[act.w];
    if act.Submit? then after == before && answer == Submitted(act.at, act.events)
    else
      && act.w in db.writers && (db.writers[act.w].Submitted? || db.writers[act.w].Inserting?)
      && var s := db.writers[act.w];
      var outcome := ConditionalAppend(before, s.next, s.rows);
      && (if act.Commit? then outcome == Appended(after) else after == before)
      && (answer.Conflicted? <==> (act.Check? || act.InsertRow?) && outcome.Conflict?)
      && (answer.Succeeded? <==> (act.Commit? && act.reported) || (act.Check? && s.rows == [] && !outcome.Conflict?))
      && (answer.Errored? <==> act.Abort? || (act.Commit? && !act.reported))
      && (act.Check? && s.rows != [] && !outcome.Conflict? ==> answer == Inserting(s.next, s.rows, 0))
      && (act.InsertRow? && !outcome.Conflict? ==> s.Inserting? && answer == s.(done := s.done + 1))
  }

  lemma CheckIsAtomic(db: Db, act: Action, n: nat)
    requires Inv(db, n) && Enabled(db, act) && act.Check?
    ensures IsAtomic(db, act, Next(db, act), n, n)
  {
    StepKeepsInv(db, act, n);
    NextOfGapless(db.table, n, act.observed);
    assert WriterInv(n, db.writers[act.w]);
    assert db.writers[act.w].rows == [] ==> |Stream(db.table, n)| + 0 <= STREAM_LIMIT;
  }

  lemma InsertIsAtomic(db: Db, act: Action, n: nat)
    requires Inv(db, n) && Enabled(db, act) && act.InsertRow?
    ensures IsAtomic(db, act, Next(db, act), n, n)
  {
    StepKeepsInv(db, act, n);
    LoserLosesAtFirstRow(db, act.w, n);
  }

  lemma CommitIsAtomic(db: Db, act: Action, n: nat)
    requires Inv(db, n) && Enabled(db, act) && act.Commit?
    ensures IsAtomic(db, act, Next(db, act), n, Grown(db, act, n))
  {
    StepKeepsInv(db, act, n);
    var s := db.writers[act.w];
    assert WriterInv(n, s);
    assert Stream(Next(db, act).table, n + |s.rows|) == Stream(db.table, n) + Rows(s.next, s.rows);
  }

  /** Every step refines the atomic conditional append. */
  lemma StepRefines(db: Db, act: Action, n: nat)
    requires Inv(db, n) && Enabled(db, act)
    ensures IsAtomic(db, act, Next(db, act), n, Grown(db, act, n))
  {
    match act
    case Check(_, _) => CheckIsAtomic(db, act, n);
    case InsertRow(_) => InsertIsAtomic(db, act, n);
    case Commit(_, _) => CommitIsAtomic(db, act, n);
    case _ => StepKeepsInv(db, act, n);
  }

  /**
   * An insert ends in a conflict if and only if its key is taken, which is so if and only if the
   * writer's position is stale; and then it strikes the first row, with nothing to undo.
   */
  lemma LoserLosesAtFirstRow(db: Db, w: nat, n: nat)
    requires Inv(db, n) && Enabled(db, InsertRow(w))
    ensures Next(db, InsertRow(w)).writers[w].Conflicted? <==> db.writers[w].next + db.writers[w].done in db.table
    ensures Next(db, InsertRow(w)).writers[w].Conflicted? <==> db.writers[w].next != n
    ensures db.writers[w].next != n ==> db.writers[w].done == 0 && db.writers[w].next < n
    ensures Next(db, InsertRow(w)).table == db.table
  {
    assert WriterInv(n, db.writers[w]);
  }

  /** Over any run the stored numbers stay gapless from 0, and the stream only ever grows. */
  lemma {:induction false} AlwaysGapless(run: seq<Db>, acts: seq<Action>, k: nat) returns (n: nat)
    requires IsRun(run, acts) && k < |run|
    ensures Inv(run[k], n)
    ensures forall j | 0 <= j <= k :: run[j].table.Keys <= run[k].table.Keys &&
              forall key | key in run[j].table :: run[k].table[key] == run[j].table[key]
  {
    if k == 0 {
      n := 0;
    } else {
      var m := AlwaysGapless(run, acts, k - 1);
      StepKeepsInv(run[k - 1], acts[k - 1], m);
      n := Grown(run[k - 1], acts[k - 1], m);
      assert run[k - 1].table.Keys <= run[k].table.Keys &&
        forall key | key in run[k - 1].table :: run[k].table[key] == run[k - 1].table[key] by
      {
        if acts[k - 1].Commit? {
          assert WriterInv(m, run[k - 1].writers[acts[k - 1].w]);
        }
      }
    }
  }

  /** In every run of racing writers each step is atomic. */
  lemma RacersSerialise(run: seq<Db>, acts: seq<Action>, k: nat) returns (n: nat, n': nat)
    requires IsRun(run, acts) && k < |acts|
    ensures IsAtomic(run[k], acts[k], run[k + 1], n, n')
  {
    n := AlwaysGapless(run, acts, k);
    n' := Grown(run[k], acts[k], n);
    StepRefines(run[k], acts[k], n);
  }

  /** The rows stand in the table, each at its position. */
  ghost predicate Stored(table: map<nat, Encoded>, at: nat, events: seq<Encoded>) {
    forall k | at <= k < at + |events| :: k in table && table[k] == events[k - at]
  }

  /** What became of a submitted append. */
  ghost predicate Progress(db: Db, w: nat, at: nat, events: seq<Encoded>) {
    w in db.writers &&
    match db.writers[w]
    case Submitted(next, rows) => next == at && rows == events
    case Inserting(next, rows, _) => next == at && rows == events
    case Succeeded => Stored(db.table, at, events)
    case _ => true
  }

  lemma StepProgress(db: Db, act: Action, n: nat, w: nat, at: nat, events: seq<Encoded>)
    requires Inv(db, n) && Enabled(db, act) && Progress(db, w, at, events)
    ensures Progress(Next(db, act), w, at, events)
  {
    StepRefines(db, act, n);
    if act.Commit? {
      assert WriterInv(n, db.writers[act.w]);
    }
  }

  /**
   * An acknowledged append is never lost: once its writer was told of a success, its events stand in
   * the table at exactly the positions it asked for, for the rest of the run.
   */
  lemma {:induction false} AcknowledgedIsStored(run: seq<Db>, acts: seq<Action>, j: nat, k: nat)
    requires IsRun(run, acts) && j < k < |run| && acts[j].Submit?
    ensures Progress(run[k], acts[j].w, acts[j].at, acts[j].events)
    ensures run[k].writers[acts[j].w].Succeeded? ==> Stored(run[k].table, acts[j].at, acts[j].events)
    decreases k
  {
    if j + 1 < k {
      AcknowledgedIsStored(run, acts, j, k - 1);
      var n := AlwaysGapless(run, acts, k - 1);
      StepProgress(run[k - 1], acts[k - 1], n, acts[j].w, acts[j].at, acts[j].events);
    }
  }

  // ----- reading

  /** SELECT ... WHERE seq_no >= from ORDER BY seq_no LIMIT limit. */
  ghost predicate IsSelected(table: map<nat, Encoded>, from: nat, limit: nat, page: seq<StoredEvent>) {
    && |page| <= limit
    && (forall i | 0 <= i < |page| ::
          page[i].seqNo in table && page[i].seqNo >= from && page[i].event == table[page[i].seqNo])
    && (forall i, j | 0 <= i < j < |page| :: page[i].seqNo < page[j].seqNo)
    && (forall k | k in table && k >= from && !Lists(page, k) ::
          |page| == limit && forall i | 0 <= i < |page| :: page[i].seqNo < k)
  }

  ghost predicate Lists(page: seq<StoredEvent>, k: nat) {
    exists i :: 0 <= i < |page| && page[i].seqNo == k
  }

  /** What `read` may answer: a position outside the BIGINT range is a store error, others are queried. */
  ghost predicate IsRead(table: map<nat, Encoded>, from: SeqNo, limit: nat, r: Option<seq<StoredEvent>>) {
    if from > I64_MAX then r.None?
    else r.Some? && IsSelected(table, from, if limit <= I64_MAX then limit else I64_MAX, r.value)
  }

  /**
   * On a gapless table `read` answers with the in-memory store's slice, except for a position beyond
   * BIGINT, behind which nothing can be stored, and a limit beyond BIGINT that even then is too
   * small for the stream.
   */
  lemma ReadIsSlice(table: map<nat, Encoded>, n: nat, from: SeqNo, limit: nat, r: Option<seq<StoredEvent>>)
    requires Gapless(table, n) && n <= I64_MAX + 1 && IsRead(table, from, limit, r)
    ensures r == Some(Read(Stream(table, n), from, limit)) <==>
      from <= I64_MAX && (limit <= I64_MAX || n - from <= I64_MAX)
    ensures from > I64_MAX ==> r.None? && Read(Stream(table, n), from, limit) == []
  {
    if r.Some? {
      SelectIsRead(table, n, from, if limit <= I64_MAX then limit else I64_MAX, r.value);
      assert limit > I64_MAX && n - from > I64_MAX ==> |r.value| == I64_MAX;
      assert limit > I64_MAX && n - from > I64_MAX ==> |Read(Stream(table, n), from, limit)| > I64_MAX;
    }
  }

  /** The ordered query itself is the slice. */
  lemma SelectIsRead(table: map<nat, Encoded>, n: nat, from: SeqNo, limit: nat, page: seq<StoredEvent>)
    requires Gapless(table, n) && n <= I64_MAX + 1 && IsSelected(table, from, limit, page)
    ensures page == Read(Stream(table, n), from, limit)
  {
    forall i | 0 <= i < |page| ensures page[i].seqNo == from + i {
      SelectedPosition(table, n, from, limit, page, i);
    }
    var behind := from + |page|;
    if page != [] {
      assert page[|page| - 1].seqNo in table;
    }
    assert !Lists(page, behind);
    assert behind < n ==> behind in table;
    assert |page| == |Read(Stream(table, n), from, limit)|;
  }

  lemma {:induction false} SelectedPosition(
      table: map<nat, Encoded>, n: nat, from: nat, limit: nat, page: seq<StoredEvent>, i: nat)
    requires Gapless(table, n) && IsSelected(table, from, limit, page) && i < |page|
    ensures page[i].seqNo == from + i
  {
    if i > 0 {
      SelectedPosition(table, n, from, limit, page, i - 1);
    }
    var missed := from + i;
    if page[i].seqNo != missed {
      assert missed < page[i].seqNo < n;
      assert missed in table;
      forall l | 0 <= l < |page| ensures page[l].seqNo != missed {
        if l < i - 1 {
          assert page[l].seqNo < page[i - 1].seqNo;
        }
      }
      assert false;
    }
  }
}
