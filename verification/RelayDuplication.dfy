/** How often a queued row can be pushed. */
module RelayDuplication {
  import opened Wrappers
  import opened Relay
  import opened RelayInvariant
  import opened RelayDelivery

  /** How many times the row was pushed into this channel. */
  function Pushes(c: Connection, row: Row): nat {
    multiset(DrainedRows(c.pushed))[row]
  }

  /** How many times the row was pushed, over all channels. */
  function PushCount(conns: seq<Connection>, row: Row): nat {
    if conns == [] then 0
    else PushCount(conns[..|conns| - 1], row) + Pushes(conns[|conns| - 1], row)
  }

  /** How many drains loaded the row. */
  function SnapshotCount(conns: seq<Connection>, row: Row): nat {
    if conns == [] then 0
    else SnapshotCount(conns[..|conns| - 1], row) + (if HasLoaded(conns[|conns| - 1], row) then 1 else 0)
  }

  predicate HasLoaded(c: Connection, row: Row) {
    c.drain.Loaded? && row in c.drain.snapshot
  }

  lemma {:induction false} SortedOnce(rows: seq<Row>, row: Row)
    requires SortedRows(rows)
    ensures multiset(rows)[row] <= 1
    ensures multiset(rows)[row] == 1 <==> row in rows
  {
    if rows != [] {
      var before, last := rows[..|rows| - 1], rows[|rows| - 1];
      assert rows == before + [last];
      SortedOnce(before, row);
      assert multiset(rows) == multiset(before) + multiset{last};
    }
  }

  lemma OneConnection(s: State, c: Connection, row: Row)
    requires ConnectionInv(c) && SnapshotInv(s, c)
    ensures Pushes(c, row) <= (if HasLoaded(c, row) then 1 else 0)
  {
    hide DrainedRows;
    if c.drain.Loaded? {
      SortedOnce(c.drain.snapshot[..c.drain.sent], row);
    }
  }

  lemma {:induction false} CountsBounded(s: State, conns: seq<Connection>, row: Row)
    requires forall k :: 0 <= k < |conns| ==> ConnectionInv(conns[k]) && SnapshotInv(s, conns[k])
    ensures PushCount(conns, row) <= SnapshotCount(conns, row)
  {
    hide ConnectionInv, SnapshotInv, HasLoaded;
    if conns != [] {
      CountsBounded(s, conns[..|conns| - 1], row);
      OneConnection(s, conns[|conns| - 1], row);
    }
  }

  /** A row is never pushed more often than it was loaded by a drain; and at any instant a drain
      has pushed exactly a prefix of what it loaded, and deleted that prefix or all but its last row. */
  lemma BoundedDuplication(run: seq<Event>, s: State, row: Row, k: nat)
    requires Run(run) == Some(s)
    ensures PushCount(s.conns, row) <= SnapshotCount(s.conns, row)
    ensures k < |s.conns| && s.conns[k].drain.Loaded? ==>
              var d := s.conns[k].drain;
              d.gone <= d.sent <= d.gone + 1 && d.sent <= |d.snapshot| && DrainedRows(s.conns[k].pushed) == d.snapshot[..d.sent]
  {
    hide Run, DrainedRows, AcceptedInv, RegistryInv, AddressInv, CoverageInv;
    InvHolds(run);
    assert k < |s.conns| ==> ConnectionInv(s.conns[k]);
    CountsBounded(s, s.conns, row);
  }

  // ---------------------------------------------------------------- runs without overlap

  /** In s, no drain of the same user is under way when e loads a snapshot, no delete fails, and
      the process does not end between a push and its delete. */
  predicate GentleEvent(s: State, e: Event) {
    match e
    case Load(k) => forall j :: 0 <= j < |s.conns| && j != k && k < |s.conns| && s.conns[j].phase == Draining ==> s.conns[j].username != s.conns[k].username
    case DeleteFail(_) => false
    case Restart => forall j :: 0 <= j < |s.conns| ==> !AwaitsDelete(s.conns[j])
    case _ => true
  }

  ghost predicate Gentle(run: seq<Event>) {
    run == [] || (Gentle(run[..|run| - 1]) && Run(run[..|run| - 1]).Some? && GentleEvent(Run(run[..|run| - 1]).value, run[|run| - 1]))
  }

  /** One drain per user; what it has not deleted is in the table; and a pushed row still in the
      table is one whose drain is about to delete it. */
  ghost predicate GentleInv(s: State) {
    && (forall j, k :: 0 <= j < k < |s.conns| && s.conns[j].phase == Draining && s.conns[k].phase == Draining ==>
          s.conns[j].username != s.conns[k].username)
    && (forall k :: 0 <= k < |s.conns| && s.conns[k].phase == Draining ==> UndeletedPresent(s, s.conns[k]))
    && (forall r :: r in s.rows && r.id in s.drained ==> AboutToGo(s, r))
  }

  predicate UndeletedPresent(s: State, c: Connection) {
    c.drain.Loaded? ==> forall i :: c.drain.gone <= i < |c.drain.snapshot| ==> c.drain.snapshot[i] in s.rows
  }

  ghost predicate AboutToGo(s: State, r: Row) {
    exists k :: 0 <= k < |s.conns| && DeletesNext(s.conns[k], r)
  }

  predicate DeletesNext(c: Connection, r: Row) {
    AwaitsDelete(c) && c.drain.snapshot[c.drain.gone] == r
  }

  /** Two drains that have the same row loaded are the same drain. */
  lemma SoleDrain(s: State, j: nat, k: nat, r: Row)
    requires TableInv(s) && GentleInv(s) && j < |s.conns| && k < |s.conns|
    requires s.conns[j].phase == Draining && HasLoaded(s.conns[j], r)
    requires s.conns[k].phase == Draining && HasLoaded(s.conns[k], r)
    ensures j == k
  {
    assert SnapshotInv(s, s.conns[j]) && SnapshotInv(s, s.conns[k]);
  }

  /** No drain is about to delete the row that another drain of the same user pushes next. */
  lemma NotAboutToGo(s: State, k: nat)
    requires TableInv(s) && GentleInv(s) && k < |s.conns| && CanPush(s.conns[k])
    ensures !AboutToGo(s, s.conns[k].drain.snapshot[s.conns[k].drain.sent])
  {
    var r := s.conns[k].drain.snapshot[s.conns[k].drain.sent];
    hide AboutToGo;
    forall j | 0 <= j < |s.conns| ensures !DeletesNext(s.conns[j], r) {
      if s.conns[j].phase == Draining && HasLoaded(s.conns[j], r) {
        SoleDrain(s, j, k, r);
      }
    }
    NoDeleter(s, r);
  }

  lemma NoDeleter(s: State, r: Row)
    requires forall j :: 0 <= j < |s.conns| ==> !DeletesNext(s.conns[j], r)
    ensures !AboutToGo(s, r)
  {
  }

  /** In a gentle state a drain only pushes a row that nothing has pushed before. */
  lemma GentlePushIsFirst(s: State, k: nat)
    requires Inv(s) && GentleInv(s) && k < |s.conns| && CanPush(s.conns[k])
    ensures s.conns[k].drain.snapshot[s.conns[k].drain.sent].id !in s.drained
    ensures s.conns[k].drain.snapshot[s.conns[k].drain.sent] in s.rows
  {
    hide ConnectionsInv, AcceptedInv, RegistryInv, AddressInv, CoverageInv, AboutToGo;
    NotAboutToGo(s, k);
  }

  /** How one connection's drain moves. */
  lemma DrainMoves(s: State, e: Event, k: nat)
    requires Step(s, e).Some? && k < |s.conns| && GentleEvent(s, e)
    ensures k < |Step(s, e).value.conns|
    ensures var c, c' := s.conns[k], Step(s, e).value.conns[k];
            && c'.username == c.username
            && (c'.phase == Draining && e != Load(k) ==> c.phase == Draining && c'.drain.Loaded? == c.drain.Loaded?)
            && (e == Load(k) ==> c'.phase == Draining && c'.drain == Loaded(RowsFor(s.rows, c.username), s.lastRowId, 0, 0))
            && (c.phase == Draining && c.drain.Loaded? && c'.phase == Draining ==>
                  c'.drain == if e == Push(k) then c.drain.(sent := c.drain.sent + 1)
                              else if e == Delete(k) then c.drain.(gone := c.drain.gone + 1)
                              else c.drain)
            && (AwaitsDelete(c) ==> e == Delete(k) || (AwaitsDelete(c') && c'.drain == c.drain))
  {
    hide Step, OwnStep, RowsFor, CanPush;
    StepShape(s, e, k);
    if Owns(e, k) {
      OwnDrainMoves(s, e, s.conns[k]);
    }
  }

  lemma OwnDrainMoves(s: State, e: Event, c: Connection)
    requires OwnStep(s, e, c).Some? && !e.DeleteFail?
    ensures var c' := OwnStep(s, e, c).value;
            && c'.username == c.username
            && (c'.phase == Draining && !e.Load? ==> c.phase == Draining && c'.drain.Loaded? == c.drain.Loaded?)
            && (e.Load? ==> c'.phase == Draining && c'.drain == Loaded(RowsFor(s.rows, c.username), s.lastRowId, 0, 0))
            && (c.phase == Draining && c.drain.Loaded? && c'.phase == Draining ==>
                  c'.drain == if e.Push? then c.drain.(sent := c.drain.sent + 1)
                              else if e.Delete? then c.drain.(gone := c.drain.gone + 1)
                              else c.drain)
            && (AwaitsDelete(c) ==> e.Delete? || (AwaitsDelete(c') && c'.drain == c.drain))
  {
    hide Admit, RowsFor;
  }

  lemma GentleOneDrain(s: State, e: Event, j: nat, k: nat)
    requires GentleInv(s) && Step(s, e).Some? && GentleEvent(s, e)
    requires j < k < |Step(s, e).value.conns|
    requires Step(s, e).value.conns[j].phase == Draining && Step(s, e).value.conns[k].phase == Draining
    ensures Step(s, e).value.conns[j].username != Step(s, e).value.conns[k].username
  {
    hide Step, AboutToGo, RowsFor;
    StepLength(s, e);
    if k < |s.conns| {
      DrainMoves(s, e, j);
      DrainMoves(s, e, k);
    }
  }

  /** A delete does not take a row that another drain still has ahead of it. */
  lemma OtherDrainsKeep(s: State, j: nat, k: nat, i: nat)
    requires TableInv(s) && GentleInv(s) && j < |s.conns| && k < |s.conns| && AwaitsDelete(s.conns[j])
    requires s.conns[k].phase == Draining && s.conns[k].drain.Loaded? && i < |s.conns[k].drain.snapshot|
    requires j == k ==> s.conns[k].drain.gone < i
    ensures s.conns[k].drain.snapshot[i].id != s.conns[j].drain.snapshot[s.conns[j].drain.gone].id
  {
    var r, deleted := s.conns[k].drain.snapshot[i], s.conns[j].drain.snapshot[s.conns[j].drain.gone];
    assert SnapshotInv(s, s.conns[j]) && SnapshotInv(s, s.conns[k]);
    if j != k && r.id == deleted.id {
      assert EverInserted(s, r) && EverInserted(s, deleted);
      SoleDrain(s, j, k, r);
      assert false;
    }
  }

  lemma GentleUndeleted(s: State, e: Event, k: nat, i: nat)
    requires TableInv(s) && GentleInv(s) && Step(s, e).Some? && GentleEvent(s, e) && k < |Step(s, e).value.conns|
    requires var c := Step(s, e).value.conns[k]; c.phase == Draining && c.drain.Loaded? && c.drain.gone <= i < |c.drain.snapshot|
    ensures Step(s, e).value.conns[k].drain.snapshot[i] in Step(s, e).value.rows
  {
    hide Step, AboutToGo, RowsFor, WithoutRow, TableInv;
    StepLength(s, e);
    if k < |s.conns| {
      var r := Step(s, e).value.conns[k].drain.snapshot[i];
      DrainMoves(s, e, k);
      TableChanges(s, e);
      if e == Load(k) {
        RowsForMember(s.rows, s.conns[k].username, r);
      } else {
        assert r == s.conns[k].drain.snapshot[i] && r in s.rows;
        if e.Delete? {
          DeleteKeeps(s, s.conns[e.conn].drain.snapshot[s.conns[e.conn].drain.gone].id);
          OtherDrainsKeep(s, e.conn, k, i);
        }
      }
    }
  }

  lemma GentleAboutToGo(s: State, e: Event, r: Row)
    requires Inv(s) && GentleInv(s) && Step(s, e).Some? && GentleEvent(s, e)
    requires r in Step(s, e).value.rows && r.id in Step(s, e).value.drained
    ensures AboutToGo(Step(s, e).value, r)
  {
    hide Step, RowsFor, DrainedRows, AcceptedInv, RegistryInv, AddressInv, CoverageInv;
    var s' := Step(s, e).value;
    StepLength(s, e);
    DrainedChanges(s, e);
    if r.id <= s.lastRowId {
      SurvivingRow(s, e, r);
      if r.id in s.drained {
        var k :| 0 <= k < |s.conns| && DeletesNext(s.conns[k], r);
        DrainMoves(s, e, k);
        assert e != Delete(k);
        assert DeletesNext(s'.conns[k], r);
      } else {
        var k := e.conn;
        var pushed := s.conns[k].drain.snapshot[s.conns[k].drain.sent];
        DrainMoves(s, e, k);
        assert SnapshotInv(s, s.conns[k]) && ConnectionInv(s.conns[k]);
        assert EverInserted(s, pushed) && EverInserted(s, r);
        PushAwaits(s, k);
        assert DeletesNext(s'.conns[k], r);
      }
    } else {
      DrainedIdsKnown(s, e, r.id);
    }
  }

  lemma PushAwaits(s: State, k: nat)
    requires k < |s.conns| && CanPush(s.conns[k]) && s.conns[k].open && Step(s, Push(k)).Some?
    ensures k < |Step(s, Push(k)).value.conns|
    ensures DeletesNext(Step(s, Push(k)).value.conns[k], s.conns[k].drain.snapshot[s.conns[k].drain.sent])
  {
    hide Step, LocalStep;
    StepShape(s, Push(k), k);
  }

  /** No step marks an id beyond the counter as pushed. */
  lemma DrainedIdsKnown(s: State, e: Event, id: nat)
    requires Inv(s) && Step(s, e).Some? && id in Step(s, e).value.drained
    ensures id <= s.lastRowId
  {
    hide Step, ConnectionsInv, AcceptedInv, RegistryInv, AddressInv;
    DrainedChanges(s, e);
    if id in s.drained {
      assert PushedSomewhere(s, id);
    } else {
      assert SnapshotInv(s, s.conns[e.conn]);
    }
  }

  lemma GentleStep(s: State, e: Event)
    requires Inv(s) && GentleInv(s) && Step(s, e).Some? && GentleEvent(s, e)
    ensures GentleInv(Step(s, e).value)
  {
    hide Step, ConnectionsInv, AcceptedInv, RegistryInv, TableInv, AddressInv, CoverageInv, AboutToGo;
    var s' := Step(s, e).value;
    forall j, k | 0 <= j < k < |s'.conns| && s'.conns[j].phase == Draining && s'.conns[k].phase == Draining
      ensures s'.conns[j].username != s'.conns[k].username
    {
      GentleOneDrain(s, e, j, k);
    }
    forall k | 0 <= k < |s'.conns| && s'.conns[k].phase == Draining ensures UndeletedPresent(s', s'.conns[k]) {
      if s'.conns[k].drain.Loaded? {
        forall i | s'.conns[k].drain.gone <= i < |s'.conns[k].drain.snapshot| ensures s'.conns[k].drain.snapshot[i] in s'.rows {
          GentleUndeleted(s, e, k, i);
        }
      }
    }
    forall r | r in s'.rows && r.id in s'.drained ensures AboutToGo(s', r) {
      GentleAboutToGo(s, e, r);
    }
  }

  lemma {:induction false} GentleHolds(run: seq<Event>)
    requires Run(run).Some? && Gentle(run)
    ensures GentleInv(Run(run).value)
  {
    hide Run, Step, Inv, GentleInv;
    InitialInv();
    if run != [] {
      RunLast(run);
      GentleHolds(run[..|run| - 1]);
      InvHolds(run[..|run| - 1]);
      GentleStep(Run(run[..|run| - 1]).value, run[|run| - 1]);
    } else {
      NothingGentle();
    }
  }

  lemma NothingGentle()
    ensures GentleInv(INITIAL)
  {
  }

  // ---------------------------------------------------------------- at most once

  lemma {:induction false} PushCountZero(conns: seq<Connection>, row: Row)
    requires forall k :: 0 <= k < |conns| ==> row !in DrainedRows(conns[k].pushed)
    ensures PushCount(conns, row) == 0
  {
    hide DrainedRows;
    if conns != [] {
      PushCountZero(conns[..|conns| - 1], row);
    }
  }

  lemma {:induction false} PushCountUpdate(conns: seq<Connection>, k: nat, c: Connection, row: Row)
    requires k < |conns|
    ensures PushCount(conns[k := c], row) + Pushes(conns[k], row)
         == PushCount(conns, row) + Pushes(c, row)
  {
    hide Pushes;
    var last := |conns| - 1;
    if k < last {
      PushCountUpdate(conns[..last], k, c, row);
      assert conns[k := c][..last] == conns[..last][k := c];
    } else {
      assert conns[k := c][..last] == conns[..last];
    }
  }

  lemma {:induction false} PushCountSame(a: seq<Connection>, b: seq<Connection>, row: Row)
    requires |a| == |b| && forall k :: 0 <= k < |a| ==> Pushes(a[k], row) == Pushes(b[k], row)
    ensures PushCount(a, row) == PushCount(b, row)
  {
    hide Pushes;
    if a != [] {
      PushCountSame(a[..|a| - 1], b[..|b| - 1], row);
    }
  }

  /** A step other than a push of the row leaves the row's pushes in every channel alone. */
  lemma PushesOfRow(s: State, e: Event, k: nat, row: Row)
    requires Step(s, e).Some? && k < |s.conns|
    ensures k < |Step(s, e).value.conns|
    ensures Pushes(Step(s, e).value.conns[k], row) == Pushes(s.conns[k], row)
            + (if e == Push(k) && CanPush(s.conns[k]) && s.conns[k].open && s.conns[k].drain.snapshot[s.conns[k].drain.sent] == row then 1 else 0)
  {
    hide Step, DrainedRows;
    PushedShape(s, e, k);
    var c, p := s.conns[k], s.conns[k].pushed;
    if e == Push(k) && CanPush(c) && c.open {
      ProjectionsSnoc(p, Drained(c.drain.snapshot[c.drain.sent]));
    } else if Reaches(s, e, k) {
      ProjectionsSnoc(p, Live(s.conns[e.conn].handler.message));
    }
  }

  lemma PushedShape(s: State, e: Event, k: nat)
    requires Step(s, e).Some? && k < |s.conns|
    ensures k < |Step(s, e).value.conns|
    ensures var c, p, p' := s.conns[k], s.conns[k].pushed, Step(s, e).value.conns[k].pushed;
            if e == Push(k) && CanPush(c) && c.open then p' == p + [Drained(c.drain.snapshot[c.drain.sent])]
            else if Reaches(s, e, k) then p' == p + [Live(s.conns[e.conn].handler.message)]
            else p' == p
  {
    hide Step, OwnStep, CanPush;
    StepShape(s, e, k);
    if Owns(e, k) {
      OwnStepPushed(s, e, s.conns[k]);
    }
  }

  lemma OwnStepPushed(s: State, e: Event, c: Connection)
    requires OwnStep(s, e, c).Some?
    ensures OwnStep(s, e, c).value.pushed
         == c.pushed + (if e.Push? && CanPush(c) && c.open then [Drained(c.drain.snapshot[c.drain.sent])] else [])
  {
    hide Admit, RowsFor;
  }

  predicate PushesRow(s: State, e: Event, row: Row) {
    e.Push? && e.conn < |s.conns| && CanPush(s.conns[e.conn]) && s.conns[e.conn].open
    && s.conns[e.conn].drain.snapshot[s.conns[e.conn].drain.sent] == row
  }

  lemma PushCountStep(s: State, e: Event, row: Row)
    requires Step(s, e).Some?
    ensures PushCount(Step(s, e).value.conns, row) == PushCount(s.conns, row) + (if PushesRow(s, e, row) then 1 else 0)
  {
    hide Step, Pushes, CanPush;
    var s' := Step(s, e).value;
    StepLength(s, e);
    var old' := s'.conns[..|s.conns|];
    forall k | 0 <= k < |s.conns|
      ensures Pushes(s'.conns[k], row) == Pushes(s.conns[k], row) + (if PushesRow(s, e, row) && e.conn == k then 1 else 0)
    {
      PushesOfRow(s, e, k, row);
    }
    if e.Open? {
      assert s'.conns[..|s'.conns| - 1] == old';
      NothingDrained(s.nextConnectionId, e.username, row);
    } else {
      assert s'.conns == old';
    }
    if PushesRow(s, e, row) {
      var k := e.conn;
      PushCountSame(old', s.conns[k := s'.conns[k]], row);
      PushCountUpdate(s.conns, k, s'.conns[k], row);
    } else {
      PushCountSame(old', s.conns, row);
    }
  }

  lemma NothingDrained(id: nat, username: string, row: Row)
    ensures Pushes(NewConnection(id, username), row) == 0
  {
  }

  /** A row whose id was never marked has not been pushed. */
  lemma UnmarkedNotPushed(s: State, row: Row)
    requires CoverageInv(s) && row.id !in s.drained
    ensures PushCount(s.conns, row) == 0
  {
    hide DrainedRows, PushCount;
    forall k | 0 <= k < |s.conns| ensures row !in DrainedRows(s.conns[k].pushed) {
      DrainedRowsMember(s.conns[k].pushed, row);
    }
    PushCountZero(s.conns, row);
  }
}
