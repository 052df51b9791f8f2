/** What a drain has still to push, and a run that makes it push that. */
module RelayDrains {
  import opened Relay
  import opened RelayInvariant
  import opened RelayScripts

  /** The drain of this connection is under way and has not yet pushed this row. */
  predicate ToPush(c: Connection, r: Row) {
    c.phase == Draining && c.drain.Loaded? && exists i :: c.drain.sent <= i < |c.drain.snapshot| && c.drain.snapshot[i] == r
  }

  lemma OwnToPush(s: State, e: Event, c: Connection)
    requires OwnStep(s, e, c).Some? && OwnStep(s, e, c).value.phase == Draining
    ensures var c' := OwnStep(s, e, c).value;
            if e.Load? then c.phase == Registered && c'.drain == Loaded(RowsFor(s.rows, c.username), s.lastRowId, 0, 0)
            else if e.Push? then CanPush(c) && c.open && c'.drain == c.drain.(sent := c.drain.sent + 1)
            else c.phase == Draining && (c'.drain == c.drain || (c.drain.Loaded? && c'.drain == c.drain.(gone := c.drain.gone + 1)))
  {
    hide Admit, RowsFor;
  }

  /** Where what is to be pushed comes from: it was to be pushed before and is not the row that
      this step pushes, or this step loads it. */
  lemma ToPushBefore(s: State, e: Event, k: nat, r: Row)
    requires TableInv(s) && Step(s, e).Some? && k < |Step(s, e).value.conns| && ToPush(Step(s, e).value.conns[k], r)
    ensures k < |s.conns|
    ensures if e == Load(k) then s.conns[k].phase == Registered && r in s.rows && r.recipient == s.conns[k].username
            else ToPush(s.conns[k], r)
                 && (e == Push(k) ==> CanPush(s.conns[k]) && s.conns[k].drain.snapshot[s.conns[k].drain.sent].id < r.id)
  {
    hide Step, OwnStep, RowsFor, SnapshotInv;
    StepLength(s, e);
    if k < |s.conns| {
      StepShape(s, e, k);
      var c := s.conns[k];
      if Owns(e, k) {
        OwnToPush(s, e, c);
        RowsForMember(s.rows, c.username, r);
        assert SnapshotInv(s, c);
        SnapshotSorted(s, c);
      }
    }
  }

  lemma SnapshotSorted(s: State, c: Connection)
    requires SnapshotInv(s, c)
    ensures c.drain.Loaded? ==> SortedRows(c.drain.snapshot)
  {
  }

  // ---------------------------------------------------------------- driving a drain

  predicate DrainEvents(more: seq<Event>) {
    forall i :: 0 <= i < |more| ==> more[i].Push? || more[i].Delete?
  }

  lemma DrainGoesOn(run: seq<Event>, s: State, k: nat)
    requires Ends(run, s) && k < |s.conns| && s.conns[k].phase == Draining && s.conns[k].drain.Loaded?
    requires s.conns[k].drain.sent < |s.conns[k].drain.snapshot|
    ensures s.conns[k].open && (if AwaitsDelete(s.conns[k]) then s.conns[k].drain.sent == s.conns[k].drain.gone + 1 else CanPush(s.conns[k]))
  {
    hide Run, AcceptedInv, RegistryInv, TableInv, AddressInv, CoverageInv, DrainedRows;
    InvHolds(run);
    assert ConnectionInv(s.conns[k]);
  }

  /** One step of a drain: its due delete, or else its next push. */
  lemma DriveOnce(run: seq<Event>, s: State, k: nat) returns (e: Event, s': State)
    requires Ends(run, s) && k < |s.conns| && s.conns[k].phase == Draining && s.conns[k].drain.Loaded?
    requires s.conns[k].drain.sent < |s.conns[k].drain.snapshot|
    ensures Ends(run + [e], s') && |s'.conns| == |s.conns|
    ensures forall j :: 0 <= j < |s.conns| && j != k ==> s'.conns[j] == s.conns[j]
    ensures s'.conns[k].phase == Draining && s'.conns[k].drain.Loaded? && s'.conns[k].drain.snapshot == s.conns[k].drain.snapshot
    ensures var c, c' := s.conns[k], s'.conns[k];
            if AwaitsDelete(c) then
              e == Delete(k) && c'.pushed == c.pushed && c'.drain.sent == c.drain.sent && c'.drain.gone == c'.drain.sent
            else
              e == Push(k) && c'.pushed == c.pushed + [Drained(c.drain.snapshot[c.drain.sent])] && c'.drain.sent == c.drain.sent + 1
  {
    hide Run, Step, Ends, WithoutRow;
    DrainGoesOn(run, s, k);
    var c := s.conns[k];
    if AwaitsDelete(c) {
      e := Delete(k);
      s' := s.(conns := s.conns[k := c.(drain := c.drain.(gone := c.drain.gone + 1))],
               rows := WithoutRow(s.rows, c.drain.snapshot[c.drain.gone].id));
      DeleteStep(run, s, k, s');
    } else {
      e := Push(k);
      var row := c.drain.snapshot[c.drain.sent];
      s' := s.(conns := s.conns[k := c.(pushed := c.pushed + [Drained(row)], drain := c.drain.(sent := c.drain.sent + 1))],
               drained := s.drained + {row.id});
      PushStep(run, s, k, row, s');
    }
  }

  /** A drain can always go on, by its own pushes and deletes alone, until it has pushed any row
      that it has to push. */
  lemma Drive(run: seq<Event>, s: State, k: nat, r: Row) returns (more: seq<Event>, s': State)
    requires Ends(run, s) && k < |s.conns| && ToPush(s.conns[k], r)
    ensures Ends(run + more, s') && DrainEvents(more) && more != [] && |s'.conns| == |s.conns|
    ensures forall j :: 0 <= j < |s.conns| && j != k ==> s'.conns[j] == s.conns[j]
    ensures |s.conns[k].pushed| < |s'.conns[k].pushed| && s.conns[k].pushed <= s'.conns[k].pushed
    ensures s'.conns[k].pushed[|s'.conns[k].pushed| - 1] == Drained(r)
    decreases |s.conns[k].drain.snapshot| - s.conns[k].drain.sent, if AwaitsDelete(s.conns[k]) then 1 else 0
  {
    hide Run, Ends;
    var e, s1 := DriveOnce(run, s, k);
    if e.Push? && s.conns[k].drain.snapshot[s.conns[k].drain.sent] == r {
      more, s' := [e], s1;
    } else {
      var rest, s2 := Drive(run + [e], s1, k, r);
      more, s' := [e] + rest, s2;
      assert run + ([e] + rest) == run + [e] + rest;
    }
  }
}
