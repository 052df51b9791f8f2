/** Exactly when a queued row is pushed twice: when a drain loads a row that was already pushed, or
    that another drain is still to push. */
module RelayFresh {
  import opened Wrappers
  import opened Relay
  import opened RelayInvariant
  import opened RelayDuplication
  import opened RelayDrains
  import opened RelayScripts

  /** What k's SELECT would load: no row that was pushed before, none that another drain has ahead. */
  predicate FreshLoad(s: State, k: nat)
    requires k < |s.conns|
  {
    forall r :: r in s.rows && r.recipient == s.conns[k].username ==> Unclaimed(s, r)
  }

  predicate Unclaimed(s: State, r: Row) {
    r.id !in s.drained && forall j :: 0 <= j < |s.conns| ==> !ToPush(s.conns[j], r)
  }

  predicate FreshEvent(s: State, e: Event) {
    e.Load? && e.conn < |s.conns| ==> FreshLoad(s, e.conn)
  }

  /** Every load of the run is fresh; deletes may fail, and the process may end at any time. */
  ghost predicate FreshRun(run: seq<Event>) {
    run == []
    || (FreshRun(run[..|run| - 1]) && Run(run[..|run| - 1]).Some? && FreshEvent(Run(run[..|run| - 1]).value, run[|run| - 1]))
  }

  // ---------------------------------------------------------------- fresh loads never duplicate

  /** What is to be pushed was not pushed before, and no two drains have it to push. */
  ghost predicate FreshInv(s: State) {
    && (forall k, r :: 0 <= k < |s.conns| && ToPush(s.conns[k], r) ==> r.id !in s.drained)
    && (forall j, k, r :: 0 <= j < k < |s.conns| && ToPush(s.conns[j], r) ==> !ToPush(s.conns[k], r))
  }

  lemma ToPushInserted(s: State, k: nat, r: Row)
    requires TableInv(s) && k < |s.conns| && ToPush(s.conns[k], r)
    ensures EverInserted(s, r) && r.recipient == s.conns[k].username
  {
    assert SnapshotInv(s, s.conns[k]);
  }

  lemma NextIsToPush(c: Connection)
    requires CanPush(c)
    ensures ToPush(c, c.drain.snapshot[c.drain.sent])
  {
  }

  lemma FreshUnmarked(s: State, e: Event, k: nat, r: Row)
    requires TableInv(s) && FreshInv(s) && Step(s, e).Some? && FreshEvent(s, e)
    requires k < |Step(s, e).value.conns| && ToPush(Step(s, e).value.conns[k], r)
    ensures r.id !in Step(s, e).value.drained
  {
    hide Step, TableInv, ToPush;
    ToPushBefore(s, e, k, r);
    DrainedChanges(s, e);
    if e != Load(k) && e.Push? && e.conn < |s.conns| && CanPush(s.conns[e.conn]) {
      var pushed := s.conns[e.conn].drain.snapshot[s.conns[e.conn].drain.sent];
      NextIsToPush(s.conns[e.conn]);
      ToPushInserted(s, k, r);
      ToPushInserted(s, e.conn, pushed);
    } else if e == Load(k) {
      assert Unclaimed(s, r);
    }
  }

  lemma FreshApart(s: State, e: Event, j: nat, k: nat, r: Row)
    requires TableInv(s) && FreshInv(s) && Step(s, e).Some? && FreshEvent(s, e)
    requires j < k < |Step(s, e).value.conns| && ToPush(Step(s, e).value.conns[j], r)
    ensures !ToPush(Step(s, e).value.conns[k], r)
  {
    hide Step, TableInv, ToPush;
    if ToPush(Step(s, e).value.conns[k], r) {
      ToPushBefore(s, e, j, r);
      ToPushBefore(s, e, k, r);
    }
  }

  lemma FreshStep(s: State, e: Event)
    requires TableInv(s) && FreshInv(s) && Step(s, e).Some? && FreshEvent(s, e)
    ensures FreshInv(Step(s, e).value)
  {
    hide Step, TableInv, ToPush, FreshEvent;
    var s' := Step(s, e).value;
    forall k, r | 0 <= k < |s'.conns| && ToPush(s'.conns[k], r) ensures r.id !in s'.drained {
      FreshUnmarked(s, e, k, r);
    }
    forall j, k, r | 0 <= j < k < |s'.conns| && ToPush(s'.conns[j], r) ensures !ToPush(s'.conns[k], r) {
      FreshApart(s, e, j, k, r);
    }
  }

  lemma TableOf(s: State)
    requires Inv(s)
    ensures TableInv(s) && CoverageInv(s)
  {
  }

  lemma NothingToPush()
    ensures FreshInv(INITIAL)
  {
  }

  lemma {:induction false} FreshHolds(run: seq<Event>)
    requires Run(run).Some? && FreshRun(run)
    ensures FreshInv(Run(run).value)
  {
    hide Run, Step, Inv, FreshInv, FreshEvent;
    InitialInv();
    if run == [] {
      NothingToPush();
    } else {
      RunLast(run);
      FreshHolds(run[..|run| - 1]);
      InvHolds(run[..|run| - 1]);
      TableOf(Run(run[..|run| - 1]).value);
      FreshStep(Run(run[..|run| - 1]).value, run[|run| - 1]);
    }
  }

  /** With such a state every push is the first of its row. */
  lemma FreshPushIsFirst(s: State, k: nat)
    requires FreshInv(s) && k < |s.conns| && CanPush(s.conns[k])
    ensures s.conns[k].drain.snapshot[s.conns[k].drain.sent].id !in s.drained
  {
    NextIsToPush(s.conns[k]);
  }

  lemma {:induction false} OnceOverRun(run: seq<Event>, row: Row)
    requires Run(run).Some? && FreshRun(run)
    ensures PushCount(Run(run).value.conns, row) <= 1
  {
    hide Run, Step, Inv, FreshInv, FreshEvent;
    InitialInv();
    if run != [] {
      RunLast(run);
      var before, e := run[..|run| - 1], run[|run| - 1];
      var s := Run(before).value;
      OnceOverRun(before, row);
      FreshHolds(before);
      InvHolds(before);
      PushCountStep(s, e, row);
      if PushesRow(s, e, row) {
        FreshPushIsFirst(s, e.conn);
        TableOf(s);
        UnmarkedNotPushed(s, row);
      }
    }
  }

  /** When every load is fresh, every row is pushed at most once, also when deletes fail, drains
      overlap and the process ends between a push and its delete. */
  lemma FreshAtMostOnce(run: seq<Event>, s: State, row: Row)
    requires Run(run) == Some(s) && FreshRun(run)
    ensures PushCount(s.conns, row) <= 1
  {
    hide Run, FreshRun, PushCount;
    OnceOverRun(run, row);
  }

  // ---------------------------------------------------------------- a stale load can duplicate

  lemma {:induction false} PushCountAtLeast(conns: seq<Connection>, k: nat, row: Row)
    requires k < |conns| && row in DrainedRows(conns[k].pushed)
    ensures PushCount(conns, row) >= 1
  {
    hide DrainedRows;
    if k < |conns| - 1 {
      PushCountAtLeast(conns[..|conns| - 1], k, row);
    }
  }

  lemma {:induction false} PushCountTwo(conns: seq<Connection>, j: nat, k: nat, row: Row)
    requires j < k < |conns| && row in DrainedRows(conns[j].pushed) && row in DrainedRows(conns[k].pushed)
    ensures PushCount(conns, row) >= 2
  {
    hide DrainedRows;
    if k < |conns| - 1 {
      PushCountTwo(conns[..|conns| - 1], j, k, row);
    } else {
      PushCountAtLeast(conns[..k], j, row);
    }
  }

  lemma LastDrained(c: Connection, r: Row)
    requires |c.pushed| > 0 && c.pushed[|c.pushed| - 1] == Drained(r)
    ensures r in DrainedRows(c.pushed)
  {
    DrainedRowsMember(c.pushed, r);
  }

  lemma LoadedToPush(run: seq<Event>, s: State, k: nat, r: Row) returns (s': State)
    requires Ends(run, s) && k < |s.conns| && s.conns[k].phase == Registered && r in s.rows && r.recipient == s.conns[k].username
    ensures Ends(run + [Load(k)], s') && |s'.conns| == |s.conns| && ToPush(s'.conns[k], r) && s'.conns[k].pushed == s.conns[k].pushed
    ensures forall j :: 0 <= j < |s.conns| && j != k ==> s'.conns[j] == s.conns[j]
  {
    hide Run, Step, Ends, RowsFor;
    var snapshot := RowsFor(s.rows, s.conns[k].username);
    s' := s.(conns := s.conns[k := s.conns[k].(phase := Draining, drain := Loaded(snapshot, s.lastRowId, 0, 0))]);
    LoadStep(run, s, k, snapshot, s');
    RowsForMember(s.rows, s.conns[k].username, r);
    var i :| 0 <= i < |snapshot| && snapshot[i] == r;
    assert s'.conns[k].drain.snapshot[i] == r;
  }

  /** A connection other than k that has pushed the row, or is to push it. */
  lemma OtherPusher(run: seq<Event>, s: State, k: nat, r: Row) returns (j: nat)
    requires Run(run) == Some(s) && k < |s.conns| && s.conns[k].phase == Registered
    requires r in s.rows && !Unclaimed(s, r)
    ensures j < |s.conns| && j != k && (ToPush(s.conns[j], r) || r in DrainedRows(s.conns[j].pushed))
  {
    hide Run, DrainedRows, AcceptedInv, RegistryInv, AddressInv;
    InvHolds(run);
    if r.id in s.drained {
      assert EverInserted(s, r) && PushedSomewhere(s, r.id);
      var i: nat :| PushedBy(s, r.id, i);
      DrainedRowsMember(s.conns[i].pushed, r);
      assert ConnectionInv(s.conns[k]);
      j := i;
    } else {
      var i :| 0 <= i < |s.conns| && ToPush(s.conns[i], r);
      j := i;
    }
  }

  /** After any load that is not fresh, pushes and deletes alone, of two drains at most, lead to a
      row that was pushed twice. */
  lemma StaleLoadDuplicates(run: seq<Event>, s: State, k: nat) returns (more: seq<Event>, s': State, row: Row)
    requires Run(run) == Some(s) && k < |s.conns| && Step(s, Load(k)).Some? && !FreshLoad(s, k)
    ensures Run(run + [Load(k)] + more) == Some(s') && DrainEvents(more) && PushCount(s'.conns, row) >= 2
  {
    hide Run, Step, PushCount, DrainedRows, ToPush, Unclaimed, FreshEvent;
    LoadWhenRegistered(s, k);
    row :| row in s.rows && row.recipient == s.conns[k].username && !Unclaimed(s, row);
    var j := OtherPusher(run, s, k, row);
    var s1 := LoadedToPush(run, s, k, row);
    var first, s2 := Drive(run + [Load(k)], s1, k, row);
    LastDrained(s2.conns[k], row);
    if row in DrainedRows(s.conns[j].pushed) {
      more, s' := first, s2;
    } else {
      var second, s3 := Drive(run + [Load(k)] + first, s2, j, row);
      LastDrained(s3.conns[j], row);
      more, s' := first + second, s3;
      assert run + [Load(k)] + (first + second) == run + [Load(k)] + first + second;
    }
    PushCountTwo(s'.conns, if j < k then j else k, if j < k then k else j, row);
  }

  lemma LoadWhenRegistered(s: State, k: nat)
    requires k < |s.conns| && Step(s, Load(k)).Some?
    ensures s.conns[k].phase == Registered
  {
    hide RowsFor;
  }

  // ---------------------------------------------------------------- both halves

  predicate NoLoads(more: seq<Event>) {
    forall i :: 0 <= i < |more| ==> !more[i].Load?
  }

  /** Everything the run can come to without a further load has every row pushed at most once. */
  ghost predicate StaysSingle(run: seq<Event>) {
    forall more: seq<Event>, row :: NoLoads(more) && Run(run + more).Some? ==> PushCount(Run(run + more).value.conns, row) <= 1
  }

  lemma {:induction false} FreshGoesOn(run: seq<Event>, more: seq<Event>)
    requires FreshRun(run) && NoLoads(more) && Run(run + more).Some?
    ensures FreshRun(run + more)
  {
    hide Run, FreshLoad;
    if more == [] {
      assert run + more == run;
    } else {
      var before := more[..|more| - 1];
      assert (run + more)[..|run + more| - 1] == run + before;
      RunLast(run + more);
      FreshGoesOn(run, before);
    }
  }

  /** After fresh loads only, a load can bring about a duplicate exactly when it is not fresh; and
      whether it is can be seen before the SELECT. */
  lemma DuplicatesExactly(run: seq<Event>, s: State, k: nat)
    requires Run(run) == Some(s) && FreshRun(run) && k < |s.conns| && Step(s, Load(k)).Some?
    ensures FreshLoad(s, k) <==> StaysSingle(run + [Load(k)])
  {
    hide Run, Step, FreshLoad, PushCount;
    var loaded := run + [Load(k)];
    assert loaded[..|run|] == run;
    if FreshLoad(s, k) {
      assert FreshRun(loaded);
      forall more: seq<Event>, row | NoLoads(more) && Run(loaded + more).Some?
        ensures PushCount(Run(loaded + more).value.conns, row) <= 1
      {
        FreshGoesOn(loaded, more);
        OnceOverRun(loaded + more, row);
      }
    } else {
      var more, s', row := StaleLoadDuplicates(run, s, k);
      assert NoLoads(more) && PushCount(Run(loaded + more).value.conns, row) > 1;
    }
  }

  // ---------------------------------------------------------------- gentle runs

  lemma GentleLoadIsFresh(s: State, k: nat)
    requires Inv(s) && GentleInv(s) && k < |s.conns| && Step(s, Load(k)).Some? && GentleEvent(s, Load(k))
    ensures FreshLoad(s, k)
  {
    hide Step, ConnectionsInv, AcceptedInv, RegistryInv, AddressInv, CoverageInv;
    LoadWhenRegistered(s, k);
    forall r | r in s.rows && r.recipient == s.conns[k].username ensures Unclaimed(s, r) {
      forall j | 0 <= j < |s.conns| ensures !ToPush(s.conns[j], r) {
        if ToPush(s.conns[j], r) {
          ToPushInserted(s, j, r);
        }
      }
      forall j | 0 <= j < |s.conns| ensures !DeletesNext(s.conns[j], r) {
        assert SnapshotInv(s, s.conns[j]);
      }
      NoDeleter(s, r);
    }
  }

  /** When drains of a user never overlap, no delete fails and the process never ends between a
      push and its delete, every load is fresh. */
  lemma {:induction false} GentleIsFresh(run: seq<Event>)
    requires Run(run).Some? && Gentle(run)
    ensures FreshRun(run)
  {
    hide Run, Step, Inv, GentleInv, GentleEvent, FreshLoad;
    if run != [] {
      RunLast(run);
      var before, e := run[..|run| - 1], run[|run| - 1];
      GentleIsFresh(before);
      GentleHolds(before);
      InvHolds(before);
      if e.Load? && e.conn < |Run(before).value.conns| {
        GentleLoadIsFresh(Run(before).value, e.conn);
      }
    }
  }

  /** So every row is then pushed at most once in the whole run. */
  lemma AtMostOnce(run: seq<Event>, s: State, row: Row)
    requires Run(run) == Some(s) && Gentle(run)
    ensures PushCount(s.conns, row) <= 1
  {
    hide Run, FreshRun, Gentle, PushCount;
    GentleIsFresh(run);
    OnceOverRun(run, row);
  }
}
