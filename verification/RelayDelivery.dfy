/** Provenance, queue safety, drain completeness and same-path order, over every run. */
module RelayDelivery {
  import opened Wrappers
  import Wire
  import opened Relay
  import opened RelayInvariant

  // ---------------------------------------------------------------- provenance

  /** m is what the checks make of a frame its sender's connection accepted, addressed to u. */
  predicate Authentic(s: State, m: Message, u: string) {
    && Known(s, m)
    && m.to == u
    && Admit(s.conns[m.conn].username, m.frame) == Admitted(u, m.payload)
  }

  lemma KnownAuthentic(s: State, m: Message)
    requires AcceptedInv(s) && Known(s, m)
    ensures Authentic(s, m, m.to)
  {
    hide Admit;
    assert AcceptedAt(s.conns[m.conn], m.conn, m.no);
  }

  lemma DrainedOk(s: State, k: nat, i: nat)
    requires ConnectionsInv(s) && TableInv(s) && k < |s.conns| && i < |s.conns[k].pushed| && s.conns[k].pushed[i].Drained?
    ensures s.conns[k].drain.Loaded? && s.conns[k].pushed[i].row in s.conns[k].drain.snapshot
    ensures EverInserted(s, s.conns[k].pushed[i].row) && s.conns[k].pushed[i].row.recipient == s.conns[k].username
  {
    hide DrainedRows;
    var c := s.conns[k];
    assert ConnectionInv(c) && SnapshotInv(s, c);
    DrainedRowsMember(c.pushed, c.pushed[i].row);
  }

  /** What sits in any channel of u, in any row for u, or in any snapshot of u's connections. */
  predicate AllAuthentic(s: State, k: nat, i: nat) {
    && (k < |s.conns| && i < |s.conns[k].pushed| ==> Authentic(s, ItemMessage(s.conns[k].pushed[i]), s.conns[k].username))
    && (k < |s.conns| && s.conns[k].drain.Loaded? && i < |s.conns[k].drain.snapshot| ==>
          Authentic(s, s.conns[k].drain.snapshot[i].message, s.conns[k].username))
    && (i < |s.rows| ==> Authentic(s, s.rows[i].message, s.rows[i].recipient))
  }

  lemma InvProvenance(s: State, k: nat, i: nat)
    requires Inv(s)
    ensures AllAuthentic(s, k, i)
  {
    hide ConnectionsInv, AcceptedInv, Authentic;
    if k < |s.conns| && i < |s.conns[k].pushed| {
      assert LiveOk(s, s.conns[k], s.conns[k].pushed[i]);
      if s.conns[k].pushed[i].Drained? {
        DrainedOk(s, k, i);
      }
      KnownAuthentic(s, ItemMessage(s.conns[k].pushed[i]));
    }
    if k < |s.conns| && s.conns[k].drain.Loaded? && i < |s.conns[k].drain.snapshot| {
      assert SnapshotInv(s, s.conns[k]) && s.conns[k].drain.snapshot[i] in s.conns[k].drain.snapshot;
      KnownAuthentic(s, s.conns[k].drain.snapshot[i].message);
    }
    if i < |s.rows| {
      assert s.rows[i] in s.rows;
      KnownAuthentic(s, s.rows[i].message);
    }
  }

  /** In every run, all of that came from a frame its own sender's connection accepted, naming
      that sender and u. */
  lemma Provenance(run: seq<Event>, s: State, k: nat, i: nat)
    requires Run(run) == Some(s)
    ensures AllAuthentic(s, k, i)
  {
    hide Run, Inv, AllAuthentic;
    InvHolds(run);
    InvProvenance(s, k, i);
  }

  /** The two checks of an accepted frame: it names its own connection's user as sender, and a
      valid username as addressee; what is forwarded is the re-encoded envelope. */
  lemma AdmittedMeans(username: string, frame: string, to: string, payload: string)
    ensures Admit(username, frame) == Admitted(to, payload) <==>
            && Wire.DecodeRouted(frame).Some?
            && Wire.DecodeRouted(frame).value.from == username
            && Wire.DecodeRouted(frame).value.to == to
            && Wire.IsValidUsername(to)
            && payload == Wire.EncodeEncrypted(Wire.DecodeRouted(frame).value.encrypted)
  {
    hide Wire.DecodeRouted, Wire.IsValidUsername, Wire.EncodeEncrypted;
  }

  // ---------------------------------------------------------------- queue safety

  /** A row ever inserted is still in the table, or was pushed into a channel of its recipient. */
  lemma QueueSafety(run: seq<Event>, i: nat)
    requires Run(run).Some? && i < |Run(run).value.inserted|
    ensures var s := Run(run).value; var row := s.inserted[i];
            || row in s.rows
            || exists k: nat :: k < |s.conns| && s.conns[k].username == row.recipient && Drained(row) in s.conns[k].pushed
  {
    hide Run, AcceptedInv, RegistryInv, AddressInv;
    InvHolds(run);
    var s := Run(run).value;
    var row := s.inserted[i];
    if row !in s.rows {
      assert PushedSomewhere(s, row.id);
      var k: nat :| PushedBy(s, row.id, k);
      var j :| 0 <= j < |s.conns[k].pushed| && s.conns[k].pushed[j] == Drained(row);
      DrainedOk(s, k, j);
    }
  }

  lemma RemovedRow(s: State, e: Event, row: Row)
    requires Inv(s) && Step(s, e).Some? && row in s.rows && row !in Step(s, e).value.rows
    ensures e.Delete? && e.conn < |s.conns| && AwaitsDelete(s.conns[e.conn])
    ensures row == s.conns[e.conn].drain.snapshot[s.conns[e.conn].drain.gone]
  {
    hide Step, ConnectionsInv, AcceptedInv, RegistryInv, AddressInv, CoverageInv;
    TableChanges(s, e);
    var c := s.conns[e.conn];
    var deleted := c.drain.snapshot[c.drain.gone];
    DeleteKeeps(s, deleted.id);
    assert SnapshotInv(s, c) && EverInserted(s, deleted) && EverInserted(s, row);
  }

  /** The only step that removes a row is a drain's delete, and that drain has pushed that row:
      a stale snapshot never deletes a row its own drain did not push. */
  lemma DeletesOnlyPushed(run: seq<Event>, e: Event, row: Row)
    requires Run(run).Some? && Step(Run(run).value, e).Some?
    requires row in Run(run).value.rows && row !in Step(Run(run).value, e).value.rows
    ensures e.Delete? && e.conn < |Run(run).value.conns|
    ensures Drained(row) in Run(run).value.conns[e.conn].pushed
    ensures row.recipient == Run(run).value.conns[e.conn].username
  {
    hide Run, Step, AcceptedInv, RegistryInv, AddressInv, ConnectionsInv, CoverageInv;
    InvHolds(run);
    var s := Run(run).value;
    RemovedRow(s, e, row);
    DeletedWasPushed(s, e.conn);
    assert SnapshotInv(s, s.conns[e.conn]);
  }

  // ---------------------------------------------------------------- drains

  /** A drain is never cut short by a closed channel: its receiver is dropped only after Spawn. */
  lemma DrainChannelOpen(run: seq<Event>, s: State, k: nat)
    requires Run(run) == Some(s) && k < |s.conns| && s.conns[k].phase == Draining
    ensures s.conns[k].open && s.conns[k].drain.Loaded?
    ensures CanPush(s.conns[k]) <==> s.conns[k].drain.gone < |s.conns[k].drain.snapshot| && !AwaitsDelete(s.conns[k])
  {
    hide Run;
    InvHolds(run);
    assert ConnectionInv(s.conns[k]);
  }

  predicate Ahead(d: Drain, r: Row)
    requires d.Loaded?
  {
    exists i :: d.gone <= i < |d.snapshot| && d.snapshot[i] == r
  }

  lemma StillAhead(d: Drain, d': Drain, r: Row)
    requires d.Loaded? && d'.Loaded? && d'.snapshot == d.snapshot && Ahead(d, r)
    requires d'.gone == d.gone || (d'.gone == d.gone + 1 <= |d.snapshot| && r != d.snapshot[d.gone])
    ensures Ahead(d', r)
  {
  }

  /** The part of a user's table that predates a snapshot is within what the drain has not deleted. */
  predicate Remaining(s: State, c: Connection) {
    c.drain.Loaded? ==>
      forall r :: r in s.rows && r.recipient == c.username && r.id <= c.drain.horizon ==> Ahead(c.drain, r)
  }

  lemma DrainProgress(s: State, e: Event, k: nat)
    requires Step(s, e).Some? && k < |s.conns| && s.conns[k].drain.Loaded? && e != Load(k)
    ensures k < |Step(s, e).value.conns|
    ensures var d, d' := s.conns[k].drain, Step(s, e).value.conns[k].drain;
            d'.Loaded? && d'.snapshot == d.snapshot && d'.horizon == d.horizon && d.sent <= d'.sent
            && (if e == Delete(k) then AwaitsDelete(s.conns[k]) && d'.gone == d.gone + 1 else d'.gone == d.gone)
  {
    hide Step, Admit, RowsFor;
    StepShape(s, e, k);
  }

  lemma RemainingAfterLoad(s: State, k: nat)
    requires Step(s, Load(k)).Some? && k < |s.conns|
    ensures k < |Step(s, Load(k)).value.conns|
    ensures Remaining(Step(s, Load(k)).value, Step(s, Load(k)).value.conns[k])
  {
    hide RowsFor;
    var s' := Step(s, Load(k)).value;
    var c := s'.conns[k];
    forall r | r in s'.rows && r.recipient == c.username ensures Ahead(c.drain, r) {
      RowsForMember(s.rows, c.username, r);
    }
  }

  /** A row that is not new was there before, and is not the row a delete removes. */
  lemma SurvivingRow(s: State, e: Event, r: Row)
    requires TableInv(s) && Step(s, e).Some? && r in Step(s, e).value.rows && r.id <= s.lastRowId
    ensures r in s.rows
    ensures e.Delete? ==> e.conn < |s.conns| && AwaitsDelete(s.conns[e.conn])
                          && r.id != s.conns[e.conn].drain.snapshot[s.conns[e.conn].drain.gone].id
  {
    TableChanges(s, e);
    if e.Delete? {
      assert e.conn < |s.conns| && AwaitsDelete(s.conns[e.conn]);
      assert Step(s, e).value.rows == WithoutRow(s.rows, s.conns[e.conn].drain.snapshot[s.conns[e.conn].drain.gone].id);
      hide Step;
      DeleteKeeps(s, s.conns[e.conn].drain.snapshot[s.conns[e.conn].drain.gone].id);
    }
  }

  /** A row of the older part that survives a step stays ahead of the drain. */
  lemma RemainingRow(s: State, e: Event, k: nat, r: Row)
    requires TableInv(s) && Step(s, e).Some? && k < |s.conns| && e != Load(k)
    requires Remaining(s, s.conns[k]) && s.conns[k].drain.Loaded?
    requires r in Step(s, e).value.rows && r.recipient == s.conns[k].username && r.id <= s.conns[k].drain.horizon
    ensures k < |Step(s, e).value.conns|
    ensures Step(s, e).value.conns[k].drain.Loaded? && Ahead(Step(s, e).value.conns[k].drain, r)
  {
    hide Step, Ahead, WithoutRow;
    StepGrows(s, e);
    DrainProgress(s, e, k);
    assert SnapshotInv(s, s.conns[k]);
    SurvivingRow(s, e, r);
    StillAhead(s.conns[k].drain, Step(s, e).value.conns[k].drain, r);
  }

  lemma RemainingStep(s: State, e: Event, k: nat)
    requires TableInv(s) && Step(s, e).Some? && k < |Step(s, e).value.conns|
    requires k < |s.conns| ==> Remaining(s, s.conns[k])
    ensures Remaining(Step(s, e).value, Step(s, e).value.conns[k])
  {
    hide Step, TableInv, Ahead;
    var s' := Step(s, e).value;
    StepLength(s, e);
    if k < |s.conns| {
      SnapshotsChange(s, e, k);
      if e == Load(k) {
        RemainingAfterLoad(s, k);
      } else if s'.conns[k].drain.Loaded? {
        forall r | r in s'.rows && r.recipient == s'.conns[k].username && r.id <= s'.conns[k].drain.horizon
          ensures Ahead(s'.conns[k].drain, r)
        {
          RemainingRow(s, e, k, r);
        }
      }
    }
  }

  lemma {:induction false} RemainingHolds(run: seq<Event>, k: nat)
    requires Run(run).Some? && k < |Run(run).value.conns|
    ensures Remaining(Run(run).value, Run(run).value.conns[k])
  {
    hide Run, Step, Remaining;
    InitialInv();
    if run != [] {
      RunLast(run);
      var s := Run(run[..|run| - 1]).value;
      InvHolds(run[..|run| - 1]);
      if k < |s.conns| {
        RemainingHolds(run[..|run| - 1], k);
      }
      RemainingStep(s, run[|run| - 1], k);
    }
  }

  /** When a drain has deleted all it loaded, every loaded row was pushed, and the rows its user
      still has were all inserted after the load, whatever ran in between. */
  lemma DrainCompleteness(run: seq<Event>, s: State, k: nat)
    requires Run(run) == Some(s) && k < |s.conns| && s.conns[k].drain.Loaded?
    requires s.conns[k].drain.gone == |s.conns[k].drain.snapshot|
    ensures var c := s.conns[k];
            && (forall r :: r in c.drain.snapshot ==> Drained(r) in c.pushed && r !in s.rows)
            && (forall r :: r in s.rows && r.recipient == c.username ==> c.drain.horizon < r.id)
  {
    hide Run, AcceptedInv, AddressInv, CoverageInv, DrainedRows, RegistryInv;
    InvHolds(run);
    RemainingHolds(run, k);
    var c := s.conns[k];
    assert ConnectionInv(c) && SnapshotInv(s, c);
    assert c.drain.snapshot[..c.drain.sent] == c.drain.snapshot;
    forall r | r in c.drain.snapshot ensures Drained(r) in c.pushed && r !in s.rows {
      DrainedRowsMember(c.pushed, r);
    }
  }
}
