/** What every reachable state of the relay satisfies. */
module RelayInvariant {
  import opened Wrappers
  import opened Relay

  // ---------------------------------------------------------------- projections of push histories

  function DrainedRows(items: seq<Item>): seq<Row> {
    if items == [] then []
    else
      var last := items[|items| - 1];
      DrainedRows(items[..|items| - 1]) + (if last.Drained? then [last.row] else [])
  }

  function LiveMessages(items: seq<Item>): seq<Message> {
    if items == [] then []
    else
      var last := items[|items| - 1];
      LiveMessages(items[..|items| - 1]) + (if last.Live? then [last.message] else [])
  }

  lemma ProjectionsSnoc(items: seq<Item>, x: Item)
    ensures DrainedRows(items + [x]) == DrainedRows(items) + (if x.Drained? then [x.row] else [])
    ensures LiveMessages(items + [x]) == LiveMessages(items) + (if x.Live? then [x.message] else [])
  {
    assert (items + [x])[..|items|] == items;
  }

  lemma {:induction false} DrainedRowsMember(items: seq<Item>, r: Row)
    ensures r in DrainedRows(items) <==> Drained(r) in items
  {
    if items != [] {
      DrainedRowsMember(items[..|items| - 1], r);
      assert items == items[..|items| - 1] + [items[|items| - 1]];
    }
  }

  // ---------------------------------------------------------------- the table

  predicate SortedRows(rows: seq<Row>) {
    forall i, j :: 0 <= i < j < |rows| ==> rows[i].id < rows[j].id
  }

  lemma {:induction false} RowsForMember(rows: seq<Row>, recipient: string, r: Row)
    ensures r in RowsFor(rows, recipient) <==> r in rows && r.recipient == recipient
  {
    if rows != [] {
      RowsForMember(rows[1..], recipient, r);
      assert rows == [rows[0]] + rows[1..];
    }
  }

  lemma {:induction false} WithoutRowMember(rows: seq<Row>, id: nat, r: Row)
    ensures r in WithoutRow(rows, id) <==> r in rows && r.id != id
  {
    if rows != [] {
      WithoutRowMember(rows[1..], id, r);
      assert rows == [rows[0]] + rows[1..];
    }
  }

  lemma SortedCons(r: Row, rows: seq<Row>)
    requires SortedRows(rows) && forall x :: x in rows ==> r.id < x.id
    ensures SortedRows([r] + rows)
  {
  }

  lemma {:induction false} RowsForSorted(rows: seq<Row>, recipient: string)
    requires SortedRows(rows)
    ensures SortedRows(RowsFor(rows, recipient))
  {
    if rows != [] {
      RowsForSorted(rows[1..], recipient);
      forall x | x in RowsFor(rows[1..], recipient) ensures rows[0].id < x.id {
        RowsForMember(rows[1..], recipient, x);
      }
      SortedCons(rows[0], RowsFor(rows[1..], recipient));
    }
  }

  lemma {:induction false} WithoutRowSorted(rows: seq<Row>, id: nat)
    requires SortedRows(rows)
    ensures SortedRows(WithoutRow(rows, id))
  {
    if rows != [] {
      WithoutRowSorted(rows[1..], id);
      forall x | x in WithoutRow(rows[1..], id) ensures rows[0].id < x.id {
        WithoutRowMember(rows[1..], id, x);
      }
      SortedCons(rows[0], WithoutRow(rows[1..], id));
    }
  }

  // ---------------------------------------------------------------- the shape of a step

  predicate Owns(e: Event, k: nat) {
    !e.Open? && !e.Restart? && e.conn == k
  }

  /** e is a Send that reaches channel k. */
  predicate Reaches(s: State, e: Event, k: nat) {
    e.Send? && e.conn < |s.conns| && s.conns[e.conn].handler.Found? && SendsTo(s, s.conns[e.conn], k)
  }

  /** A connection after a step: its own step if it is the one that moves, and then the push if
      it is the channel a Send reaches. */
  function ConnectionAfter(s: State, e: Event, k: nat): Connection
    requires k < |s.conns| && !e.Restart?
    requires Owns(e, k) ==> OwnStep(s, e, s.conns[k]).Some?
  {
    var c := if Owns(e, k) then OwnStep(s, e, s.conns[k]).value else s.conns[k];
    if Reaches(s, e, k) then c.(pushed := c.pushed + [Live(s.conns[e.conn].handler.message)]) else c
  }

  lemma StepShape(s: State, e: Event, k: nat)
    requires Step(s, e).Some? && k < |s.conns|
    ensures k < |Step(s, e).value.conns|
    ensures !e.Open? && !e.Restart? ==> e.conn < |s.conns| && OwnStep(s, e, s.conns[e.conn]).Some?
    ensures Step(s, e).value.conns[k] == if e.Restart? then Crashed(s.conns[k]) else ConnectionAfter(s, e, k)
  {
    hide OwnStep, NewRows, RowsAfter, ActiveAfter, DrainedAfter;
  }

  lemma StepLength(s: State, e: Event)
    requires Step(s, e).Some?
    ensures |Step(s, e).value.conns| == |s.conns| + (if e.Open? then 1 else 0)
    ensures e.Open? ==> Step(s, e).value.conns[|s.conns|] == NewConnection(s.nextConnectionId, e.username)
    ensures !e.Open? && !e.Restart? ==> e.conn < |s.conns| && OwnStep(s, e, s.conns[e.conn]).Some?
  {
    hide OwnStep, NewRows, RowsAfter, ActiveAfter, DrainedAfter;
  }

  // ---------------------------------------------------------------- growth

  predicate Continues(c: Connection, c': Connection) {
    && c'.username == c.username && c'.id == c.id
    && c.accepted <= c'.accepted && c.pushed <= c'.pushed && c.lost <= c'.lost
  }

  lemma OwnStepContinues(s: State, e: Event, c: Connection)
    requires OwnStep(s, e, c).Some?
    ensures Continues(c, OwnStep(s, e, c).value)
  {
    hide Admit, RowsFor;
  }

  lemma StepContinues(s: State, e: Event, k: nat)
    requires Step(s, e).Some? && k < |s.conns|
    ensures k < |Step(s, e).value.conns| && Continues(s.conns[k], Step(s, e).value.conns[k])
  {
    hide Step, OwnStep;
    StepShape(s, e, k);
    if Owns(e, k) {
      OwnStepContinues(s, e, s.conns[k]);
    }
  }

  /** Connections are never forgotten, and histories only grow. */
  lemma StepGrows(s: State, e: Event)
    requires Step(s, e).Some?
    ensures |s.conns| <= |Step(s, e).value.conns|
    ensures forall k :: 0 <= k < |s.conns| ==> Continues(s.conns[k], Step(s, e).value.conns[k])
    ensures s.inserted <= Step(s, e).value.inserted && s.drained <= Step(s, e).value.drained
  {
    StepLength(s, e);
    forall k | 0 <= k < |s.conns| ensures Continues(s.conns[k], Step(s, e).value.conns[k]) {
      StepContinues(s, e, k);
    }
    hide OwnStep, Continues;
  }

  // ---------------------------------------------------------------- one connection

  /** Before the tasks are spawned the channel is open and nothing was written; the drain has
      pushed a prefix of its snapshot and deleted all of it, or all but the last row. */
  predicate ConnectionInv(c: Connection) {
    && (c.phase in {Opened, Registered, Draining, DrainOver} ==> c.open && !c.receiving && c.written == 0)
    && (c.phase in {Opened, Registered} ==> c.drain.NotLoaded?)
    && (c.phase == Draining ==> c.drain.Loaded?)
    && (c.drain.Loaded? ==> c.drain.gone <= c.drain.sent <= c.drain.gone + 1 && c.drain.sent <= |c.drain.snapshot|)
    && DrainedRows(c.pushed) == (if c.drain.Loaded? then c.drain.snapshot[..c.drain.sent] else [])
    && c.written <= |c.pushed|
    && (!c.receiving ==> c.handler.Idle?)
    && (!c.handler.Idle? ==> c.accepted != [] && c.handler.message == c.accepted[|c.accepted| - 1])
  }

  predicate ConnectionsInv(s: State) {
    forall k :: 0 <= k < |s.conns| ==> ConnectionInv(s.conns[k])
  }

  lemma LocalStepInv(c: Connection, e: Event)
    requires ConnectionInv(c) && LocalStep(c, e).Some?
    ensures ConnectionInv(LocalStep(c, e).value)
  {
    hide Admit;
  }

  lemma PushInv(c: Connection, x: Item)
    requires ConnectionInv(c)
    ensures x.Live? ==> ConnectionInv(c.(pushed := c.pushed + [x]))
    ensures x.Drained? && CanPush(c) && x.row == c.drain.snapshot[c.drain.sent] ==>
              ConnectionInv(c.(pushed := c.pushed + [x], drain := c.drain.(sent := c.drain.sent + 1)))
  {
    ProjectionsSnoc(c.pushed, x);
  }

  lemma EndsInv(id: nat, username: string, c: Connection)
    ensures ConnectionInv(NewConnection(id, username))
    ensures ConnectionInv(c) ==> ConnectionInv(Crashed(c))
  {
  }

  lemma OwnStepInv(s: State, e: Event, c: Connection)
    requires ConnectionInv(c) && OwnStep(s, e, c).Some?
    ensures ConnectionInv(OwnStep(s, e, c).value)
  {
    hide Admit, LocalStep, DrainedRows, RowsFor;
    if LocalStep(c, e).Some? {
      LocalStepInv(c, e);
    }
    if e.Push? && CanPush(c) {
      PushInv(c, Drained(c.drain.snapshot[c.drain.sent]));
    }
  }

  lemma ConnectionsInvStep(s: State, e: Event)
    requires ConnectionsInv(s) && Step(s, e).Some?
    ensures ConnectionsInv(Step(s, e).value)
  {
    hide Step, ConnectionInv, OwnStep, NewConnection, Crashed;
    var s' := Step(s, e).value;
    StepLength(s, e);
    forall k | 0 <= k < |s'.conns| ensures ConnectionInv(s'.conns[k]) {
      if k < |s.conns| {
        StepShape(s, e, k);
        EndsInv(0, "", s.conns[k]);
        if Owns(e, k) {
          OwnStepInv(s, e, s.conns[k]);
        }
        if Reaches(s, e, k) {
          var c := if Owns(e, k) then OwnStep(s, e, s.conns[k]).value else s.conns[k];
          PushInv(c, Live(s.conns[e.conn].handler.message));
        }
      } else {
        EndsInv(s.nextConnectionId, e.username, s'.conns[k]);
      }
    }
  }

  // ---------------------------------------------------------------- accepted messages

  /** An accepted message is named by its connection and its frame number there, and is what
      the checks make of the frame that arrived. */
  predicate AcceptedInv(s: State) {
    forall k, i :: 0 <= k < |s.conns| && 0 <= i < |s.conns[k].accepted| ==> AcceptedAt(s.conns[k], k, i)
  }

  predicate AcceptedAt(c: Connection, k: nat, i: nat)
    requires i < |c.accepted|
  {
    var m := c.accepted[i];
    m.conn == k && m.no == i && Admit(c.username, m.frame) == Admitted(m.to, m.payload)
  }

  predicate Known(s: State, m: Message) {
    m.conn < |s.conns| && m.no < |s.conns[m.conn].accepted| && s.conns[m.conn].accepted[m.no] == m
  }

  lemma KnownGrows(s: State, e: Event, m: Message)
    requires Known(s, m) && Step(s, e).Some?
    ensures Known(Step(s, e).value, m)
  {
    hide Step;
    StepGrows(s, e);
  }

  lemma HandlerKnown(s: State, k: nat)
    requires ConnectionsInv(s) && AcceptedInv(s) && k < |s.conns| && !s.conns[k].handler.Idle?
    ensures Known(s, s.conns[k].handler.message) && s.conns[k].handler.message.conn == k
    ensures s.conns[k].handler.message.no == |s.conns[k].accepted| - 1
  {
    hide Admit;
    var c := s.conns[k];
    assert ConnectionInv(c);
    assert AcceptedAt(c, k, |c.accepted| - 1);
  }

  lemma OwnStepAccepted(s: State, e: Event, c: Connection)
    requires !e.Open? && !e.Restart? && OwnStep(s, e, c).Some?
    ensures var c' := OwnStep(s, e, c).value;
            || c'.accepted == c.accepted
            || (e.Frame? && Admit(c.username, e.frame).Admitted?
                && var a := Admit(c.username, e.frame);
                   c'.accepted == c.accepted + [Message(e.conn, |c.accepted|, a.to, a.payload, e.frame)])
  {
    hide Admit, RowsFor;
  }

  lemma AcceptedInvStep(s: State, e: Event)
    requires AcceptedInv(s) && Step(s, e).Some?
    ensures AcceptedInv(Step(s, e).value)
  {
    hide Step, OwnStep, Admit;
    var s' := Step(s, e).value;
    StepLength(s, e);
    forall k, i | 0 <= k < |s'.conns| && 0 <= i < |s'.conns[k].accepted| ensures AcceptedAt(s'.conns[k], k, i) {
      if k < |s.conns| {
        StepShape(s, e, k);
        StepContinues(s, e, k);
        if Owns(e, k) {
          OwnStepAccepted(s, e, s.conns[k]);
        }
        if i < |s.conns[k].accepted| {
          assert AcceptedAt(s.conns[k], k, i);
        }
      }
    }
  }

  // ---------------------------------------------------------------- the registry

  predicate RegistryInv(s: State) {
    && s.firstLive <= |s.conns|
    && s.nextConnectionId == (|s.conns| - s.firstLive + 1) % ID_SPACE
    && (forall k :: 0 <= k < s.firstLive ==> s.conns[k].phase == Closed)
    && (forall k :: s.firstLive <= k < |s.conns| ==> s.conns[k].id == (k - s.firstLive + 1) % ID_SPACE)
    && (forall u :: u in s.active ==> EntryOk(s, u))
  }

  /** An entry names a registered connection of that user, of the current process, by its id. */
  predicate EntryOk(s: State, u: string)
    requires u in s.active
  {
    var a := s.active[u];
    s.firstLive <= a.channel < |s.conns| && s.conns[a.channel].username == u && s.conns[a.channel].id == a.connectionId
    && s.conns[a.channel].phase != Opened
  }

  lemma PhasesChange(s: State, e: Event, k: nat)
    requires Step(s, e).Some? && k < |s.conns|
    ensures k < |Step(s, e).value.conns|
    ensures s.conns[k].phase == Closed ==> Step(s, e).value.conns[k].phase == Closed
    ensures Step(s, e).value.conns[k].phase == Opened ==> s.conns[k].phase == Opened
    ensures Step(s, e).value.conns[k].id == s.conns[k].id && Step(s, e).value.conns[k].username == s.conns[k].username
    ensures e.Restart? ==> Step(s, e).value.conns[k].phase == Closed
    ensures e == Register(k) ==> s.conns[k].phase == Opened && Step(s, e).value.conns[k].phase == Registered
  {
    hide Step, Admit, RowsFor;
    StepShape(s, e, k);
  }

  lemma RegistryChanges(s: State, e: Event)
    requires Step(s, e).Some?
    ensures var s' := Step(s, e).value;
            match e
            case Open(username) =>
              s'.conns == s.conns + [NewConnection(s.nextConnectionId, username)]
              && s'.nextConnectionId == (s.nextConnectionId + 1) % ID_SPACE && s'.firstLive == s.firstLive && s'.active == s.active
            case Restart =>
              |s'.conns| == |s.conns| && s'.nextConnectionId == 1 && s'.firstLive == |s.conns| && s'.active == map[]
            case _ =>
              |s'.conns| == |s.conns| && s'.nextConnectionId == s.nextConnectionId && s'.firstLive == s.firstLive
              && e.conn < |s.conns| && s'.active == ActiveAfter(s, e, s.conns[e.conn])
  {
    hide OwnStep;
  }

  lemma RegistryInvStep(s: State, e: Event)
    requires RegistryInv(s) && Step(s, e).Some?
    ensures RegistryInv(Step(s, e).value)
  {
    hide Step;
    var s' := Step(s, e).value;
    RegistryChanges(s, e);
    forall k | 0 <= k < |s.conns|
      ensures s'.conns[k].id == s.conns[k].id && s'.conns[k].username == s.conns[k].username
      ensures s.conns[k].phase == Closed || e.Restart? ==> s'.conns[k].phase == Closed
    {
      PhasesChange(s, e, k);
    }
    if e.Open? {
      NextId(|s.conns| - s.firstLive + 1);
    }
    forall u | u in s'.active ensures EntryOk(s', u) {
      if u in s.active && s'.active[u] == s.active[u] {
        assert EntryOk(s, u);
        PhasesChange(s, e, s.active[u].channel);
      } else {
        PhasesChange(s, e, e.conn);
      }
    }
  }

  lemma NextId(n: nat)
    ensures (n % ID_SPACE + 1) % ID_SPACE == (n + 1) % ID_SPACE
  {
  }

  // ---------------------------------------------------------------- the table

  /** r is the row of that id, now or earlier. */
  predicate EverInserted(s: State, r: Row) {
    1 <= r.id <= |s.inserted| && s.inserted[r.id - 1] == r
  }

  predicate TableInv(s: State) {
    && s.lastRowId == |s.inserted|
    && (forall i :: 0 <= i < |s.inserted| ==> s.inserted[i].id == i + 1)
    && SortedRows(s.rows)
    && (forall r :: r in s.rows ==> EverInserted(s, r))
    && (forall k :: 0 <= k < |s.conns| ==> SnapshotInv(s, s.conns[k]))
  }

  /** A snapshot holds rows of its user inserted before it was taken, in id order. */
  predicate SnapshotInv(s: State, c: Connection) {
    c.drain.Loaded? ==>
      && SortedRows(c.drain.snapshot)
      && c.drain.horizon <= s.lastRowId
      && forall r :: r in c.drain.snapshot ==> EverInserted(s, r) && r.recipient == c.username && r.id <= c.drain.horizon
  }

  lemma LoadSnapshot(s: State, username: string)
    requires TableInv(s)
    ensures SortedRows(RowsFor(s.rows, username))
    ensures forall r :: r in RowsFor(s.rows, username) ==> EverInserted(s, r) && r.recipient == username && r.id <= s.lastRowId
  {
    RowsForSorted(s.rows, username);
    forall r | r in RowsFor(s.rows, username)
      ensures EverInserted(s, r) && r.recipient == username && r.id <= s.lastRowId
    {
      RowsForMember(s.rows, username, r);
    }
  }

  lemma {:induction false} DeleteKeeps(s: State, id: nat)
    requires TableInv(s)
    ensures SortedRows(WithoutRow(s.rows, id))
    ensures forall r :: r in WithoutRow(s.rows, id) <==> r in s.rows && r.id != id
  {
    WithoutRowSorted(s.rows, id);
    forall r ensures r in WithoutRow(s.rows, id) <==> r in s.rows && r.id != id {
      WithoutRowMember(s.rows, id, r);
    }
  }

  lemma SnapshotGrows(s: State, s': State, c: Connection)
    requires SnapshotInv(s, c) && s.inserted <= s'.inserted && s.lastRowId <= s'.lastRowId
    ensures SnapshotInv(s', c)
  {
    if c.drain.Loaded? {
      forall r | r in c.drain.snapshot ensures EverInserted(s', r) && r.recipient == c.username && r.id <= c.drain.horizon {
        assert EverInserted(s, r);
      }
    }
  }

  /** A step leaves a connection's snapshot alone, or it is the Load that takes it. */
  lemma SnapshotsChange(s: State, e: Event, k: nat)
    requires Step(s, e).Some? && k < |s.conns|
    ensures k < |Step(s, e).value.conns|
    ensures Step(s, e).value.conns[k].username == s.conns[k].username
    ensures e == Load(k) ==> Step(s, e).value.conns[k].drain == Loaded(RowsFor(s.rows, s.conns[k].username), s.lastRowId, 0, 0)
    ensures e != Load(k) ==>
              var d, d' := s.conns[k].drain, Step(s, e).value.conns[k].drain;
              d == d' || (d.Loaded? && d'.Loaded? && d'.snapshot == d.snapshot && d'.horizon == d.horizon)
  {
    hide Step, OwnStep;
    StepShape(s, e, k);
    if Owns(e, k) {
      OwnStepSnapshot(s, e, s.conns[k]);
    }
  }

  lemma OwnStepSnapshot(s: State, e: Event, c: Connection)
    requires OwnStep(s, e, c).Some?
    ensures var c' := OwnStep(s, e, c).value;
            && c'.username == c.username
            && if e.Load? then c'.drain == Loaded(RowsFor(s.rows, c.username), s.lastRowId, 0, 0)
               else c'.drain == c.drain
                    || (c.drain.Loaded? && c'.drain.Loaded? && c'.drain.snapshot == c.drain.snapshot && c'.drain.horizon == c.drain.horizon)
  {
    hide Admit, RowsFor;
  }

  lemma TableChanges(s: State, e: Event)
    requires Step(s, e).Some?
    ensures s.lastRowId <= Step(s, e).value.lastRowId && s.inserted <= Step(s, e).value.inserted
    ensures e.Delete? ==>
              e.conn < |s.conns| && AwaitsDelete(s.conns[e.conn])
              && Step(s, e).value.rows == WithoutRow(s.rows, s.conns[e.conn].drain.snapshot[s.conns[e.conn].drain.gone].id)
    ensures !e.Delete? && !e.Insert? ==> Step(s, e).value.rows == s.rows
    ensures e.Insert? ==>
              e.conn < |s.conns| && s.conns[e.conn].handler.Queueing?
              && var m := s.conns[e.conn].handler.message;
                 var row := Row(s.lastRowId + 1, m.to, m);
                 Step(s, e).value.rows == s.rows + [row] && Step(s, e).value.inserted == s.inserted + [row]
                 && Step(s, e).value.lastRowId == s.lastRowId + 1
    ensures !e.Insert? ==> Step(s, e).value.inserted == s.inserted && Step(s, e).value.lastRowId == s.lastRowId
  {
    hide Admit, RowsFor, WithoutRow, LocalStep;
  }

  lemma TableInvStep(s: State, e: Event)
    requires TableInv(s) && Step(s, e).Some?
    ensures TableInv(Step(s, e).value)
  {
    hide RowsFor, WithoutRow, SnapshotInv;
    var s' := Step(s, e).value;
    TableChanges(s, e);
    if e.Delete? {
      DeleteKeeps(s, s.conns[e.conn].drain.snapshot[s.conns[e.conn].drain.gone].id);
    }
    forall r | r in s'.rows ensures EverInserted(s', r) {
      assert r in s.rows ==> EverInserted(s, r);
    }
    assert SortedRows(s'.rows) by {
      if e.Insert? {
        forall r | r in s.rows ensures r.id <= s.lastRowId { assert EverInserted(s, r); }
      }
    }
    forall k | 0 <= k < |s'.conns| ensures SnapshotInv(s', s'.conns[k]) {
      SnapshotInvStep(s, e, k);
    }
  }

  lemma SameSnapshot(s: State, c: Connection, c': Connection)
    requires SnapshotInv(s, c) && c'.username == c.username
    requires c'.drain == c.drain || (c'.drain.Loaded? && c.drain.Loaded? && c'.drain.snapshot == c.drain.snapshot && c'.drain.horizon == c.drain.horizon)
    ensures SnapshotInv(s, c')
  {
  }

  lemma FreshSnapshot(s: State, c: Connection)
    ensures c.drain.NotLoaded? ==> SnapshotInv(s, c)
    ensures TableInv(s) && c.drain == Loaded(RowsFor(s.rows, c.username), s.lastRowId, 0, 0) ==> SnapshotInv(s, c)
  {
    hide TableInv, RowsFor;
    if TableInv(s) {
      LoadSnapshot(s, c.username);
    }
  }

  lemma SnapshotInvStep(s: State, e: Event, k: nat)
    requires TableInv(s) && Step(s, e).Some? && k < |Step(s, e).value.conns|
    ensures SnapshotInv(Step(s, e).value, Step(s, e).value.conns[k])
  {
    hide Step, SnapshotInv, RowsFor;
    var s' := Step(s, e).value;
    StepLength(s, e);
    TableChanges(s, e);
    if k >= |s.conns| {
      FreshSnapshot(s', s'.conns[k]);
    } else {
      SnapshotsChange(s, e, k);
      if e == Load(k) {
        FreshSnapshot(s, s'.conns[k]);
        SnapshotGrows(s, s', s'.conns[k]);
      } else {
        SnapshotGrows(s, s', s.conns[k]);
        SameSnapshot(s', s.conns[k], s'.conns[k]);
      }
    }
  }

  // ---------------------------------------------------------------- where messages go

  function ItemMessage(x: Item): Message {
    if x.Live? then x.message else x.row.message
  }

  /** Live pushes, found channels and rows all carry accepted messages to their addressee. */
  predicate AddressInv(s: State) {
    && (forall k, i :: 0 <= k < |s.conns| && 0 <= i < |s.conns[k].pushed| ==> LiveOk(s, s.conns[k], s.conns[k].pushed[i]))
    && (forall k :: 0 <= k < |s.conns| ==> FoundOk(s, s.conns[k]))
    && (forall i :: 0 <= i < |s.inserted| ==> Known(s, s.inserted[i].message) && s.inserted[i].recipient == s.inserted[i].message.to)
  }

  predicate LiveOk(s: State, c: Connection, x: Item) {
    x.Live? ==> Known(s, x.message) && x.message.to == c.username
  }

  predicate FoundOk(s: State, c: Connection) {
    c.handler.Found? ==> c.handler.channel < |s.conns| && s.conns[c.handler.channel].username == c.handler.message.to
  }

  /** The only step that pushes a live message is a Send to an open channel. */
  lemma PushesChange(s: State, e: Event, k: nat)
    requires Step(s, e).Some? && k < |s.conns|
    ensures k < |Step(s, e).value.conns|
    ensures var p, p' := s.conns[k].pushed, Step(s, e).value.conns[k].pushed;
            || p' == p
            || (e == Push(k) && CanPush(s.conns[k]) && p' == p + [Drained(s.conns[k].drain.snapshot[s.conns[k].drain.sent])])
            || (e.Send? && e.conn < |s.conns| && s.conns[e.conn].handler == Found(s.conns[e.conn].handler.message, k)
                && s.conns[k].open && p' == p + [Live(s.conns[e.conn].handler.message)])
  {
    hide Step, Admit, RowsFor;
    StepShape(s, e, k);
  }

  lemma HandlersChange(s: State, e: Event, k: nat)
    requires Step(s, e).Some? && k < |s.conns|
    ensures k < |Step(s, e).value.conns|
    ensures var h, h' := s.conns[k].handler, Step(s, e).value.conns[k].handler;
            || h' == h || h' == Idle || (e.Frame? && e.conn == k && h'.Routing?)
            || (e == Lookup(k) && h.Routing? && h' == if h.message.to in s.active then Found(h.message, s.active[h.message.to].channel) else Queueing(h.message))
            || (e == Send(k) && h.Found? && h' == Queueing(h.message))
  {
    hide Step, Admit, RowsFor;
    StepShape(s, e, k);
  }

  lemma PushAddressed(s: State, e: Event, k: nat, i: nat)
    requires ConnectionsInv(s) && AcceptedInv(s) && AddressInv(s) && Step(s, e).Some?
    requires k < |Step(s, e).value.conns| && i < |Step(s, e).value.conns[k].pushed|
    ensures LiveOk(Step(s, e).value, Step(s, e).value.conns[k], Step(s, e).value.conns[k].pushed[i])
  {
    hide Step, ConnectionsInv, AcceptedInv, Known;
    var s' := Step(s, e).value;
    StepLength(s, e);
    if k < |s.conns| {
      StepContinues(s, e, k);
      PushesChange(s, e, k);
      if i < |s.conns[k].pushed| {
        assert LiveOk(s, s.conns[k], s.conns[k].pushed[i]);
        assert s'.conns[k].pushed[i] == s.conns[k].pushed[i];
      } else if e.Send? {
        HandlerKnown(s, e.conn);
        assert FoundOk(s, s.conns[e.conn]);
      }
      if s'.conns[k].pushed[i].Live? {
        KnownGrows(s, e, s'.conns[k].pushed[i].message);
      }
    }
  }

  lemma FoundAddressed(s: State, e: Event, k: nat)
    requires RegistryInv(s) && AddressInv(s) && Step(s, e).Some? && k < |Step(s, e).value.conns|
    ensures FoundOk(Step(s, e).value, Step(s, e).value.conns[k])
  {
    hide Step, LiveOk;
    var s' := Step(s, e).value;
    StepLength(s, e);
    if k < |s.conns| {
      HandlersChange(s, e, k);
      var h, h' := s.conns[k].handler, s'.conns[k].handler;
      assert FoundOk(s, s.conns[k]);
      if h.Routing? && h.message.to in s.active {
        assert EntryOk(s, h.message.to);
      }
      if h'.Found? {
        StepContinues(s, e, h'.channel);
      }
    }
  }

  lemma RowAddressed(s: State, e: Event, i: nat)
    requires ConnectionsInv(s) && AcceptedInv(s) && AddressInv(s) && Step(s, e).Some? && i < |Step(s, e).value.inserted|
    ensures var r := Step(s, e).value.inserted[i]; Known(Step(s, e).value, r.message) && r.recipient == r.message.to
  {
    hide Step, ConnectionsInv, AcceptedInv, Known, LiveOk, FoundOk;
    TableChanges(s, e);
    if i == |s.inserted| {
      HandlerKnown(s, e.conn);
    }
    KnownGrows(s, e, Step(s, e).value.inserted[i].message);
  }

  lemma AddressInvStep(s: State, e: Event)
    requires ConnectionsInv(s) && AcceptedInv(s) && RegistryInv(s) && AddressInv(s) && Step(s, e).Some?
    ensures AddressInv(Step(s, e).value)
  {
    hide Step, ConnectionsInv, AcceptedInv, RegistryInv, LiveOk, FoundOk, Known;
    var s' := Step(s, e).value;
    forall k, i | 0 <= k < |s'.conns| && 0 <= i < |s'.conns[k].pushed| ensures LiveOk(s', s'.conns[k], s'.conns[k].pushed[i]) {
      PushAddressed(s, e, k, i);
    }
    forall k | 0 <= k < |s'.conns| ensures FoundOk(s', s'.conns[k]) {
      FoundAddressed(s, e, k);
    }
    forall i | 0 <= i < |s'.inserted|
      ensures Known(s', s'.inserted[i].message) && s'.inserted[i].recipient == s'.inserted[i].message.to
    {
      RowAddressed(s, e, i);
    }
  }

  /** Every row is still in the table or was pushed by a drain of its recipient. */
  ghost predicate CoverageInv(s: State) {
    && (forall i :: 0 <= i < |s.inserted| ==> s.inserted[i] in s.rows || s.inserted[i].id in s.drained)
    && (forall id :: id in s.drained ==> PushedSomewhere(s, id))
    && (forall k, i :: 0 <= k < |s.conns| && 0 <= i < |s.conns[k].pushed| && s.conns[k].pushed[i].Drained? ==>
          s.conns[k].pushed[i].row.id in s.drained)
  }

  predicate PushedBy(s: State, id: nat, k: nat) {
    1 <= id <= |s.inserted| && k < |s.conns| && Drained(s.inserted[id - 1]) in s.conns[k].pushed
  }

  ghost predicate PushedSomewhere(s: State, id: nat) {
    exists k: nat :: PushedBy(s, id, k)
  }

  lemma DrainedChanges(s: State, e: Event)
    requires Step(s, e).Some?
    ensures var s' := Step(s, e).value;
            || (s'.drained == s.drained && forall k :: 0 <= k < |s.conns| ==> e != Push(k) || s'.conns[k].pushed == s.conns[k].pushed)
            || (e.Push? && e.conn < |s.conns| && CanPush(s.conns[e.conn])
                && var r := s.conns[e.conn].drain.snapshot[s.conns[e.conn].drain.sent];
                   s'.drained == s.drained + {r.id} && s'.conns[e.conn].pushed == s.conns[e.conn].pushed + [Drained(r)])
  {
    hide Admit, RowsFor, WithoutRow, LocalStep;
  }

  lemma RowsCoveredStep(s: State, e: Event, i: nat)
    requires ConnectionsInv(s) && TableInv(s) && CoverageInv(s) && Step(s, e).Some? && i < |Step(s, e).value.inserted|
    ensures var s' := Step(s, e).value; s'.inserted[i] in s'.rows || s'.inserted[i].id in s'.drained
  {
    hide Step, ConnectionsInv;
    StepGrows(s, e);
    TableChanges(s, e);
    if i < |s.inserted| && s.inserted[i] in s.rows && e.Delete? {
      DeletedWasPushed(s, e.conn);
      DeleteKeeps(s, s.conns[e.conn].drain.snapshot[s.conns[e.conn].drain.gone].id);
    }
  }

  lemma PushedSomewhereStep(s: State, e: Event, id: nat)
    requires TableInv(s) && CoverageInv(s) && Step(s, e).Some? && id in Step(s, e).value.drained
    ensures PushedSomewhere(Step(s, e).value, id)
  {
    hide Step;
    var s' := Step(s, e).value;
    StepGrows(s, e);
    DrainedChanges(s, e);
    if id in s.drained {
      var k: nat :| PushedBy(s, id, k);
      assert Continues(s.conns[k], s'.conns[k]);
      assert PushedBy(s', id, k);
    } else {
      var c := s.conns[e.conn];
      var r := c.drain.snapshot[c.drain.sent];
      assert SnapshotInv(s, c) && EverInserted(s, r);
      assert s'.conns[e.conn].pushed[|c.pushed|] == Drained(r);
      assert PushedBy(s', id, e.conn);
    }
  }

  lemma PushedRowsDrainedStep(s: State, e: Event, k: nat, i: nat)
    requires CoverageInv(s) && Step(s, e).Some? && k < |Step(s, e).value.conns|
    requires i < |Step(s, e).value.conns[k].pushed| && Step(s, e).value.conns[k].pushed[i].Drained?
    ensures Step(s, e).value.conns[k].pushed[i].row.id in Step(s, e).value.drained
  {
    var s' := Step(s, e).value;
    RegistryChanges(s, e);
    StepGrows(s, e);
    if k < |s.conns| {
      PushesChange(s, e, k);
      DrainedChanges(s, e);
      if i < |s.conns[k].pushed| {
        assert s.conns[k].pushed[i] == s'.conns[k].pushed[i];
      }
    }
  }

  lemma CoverageInvStep(s: State, e: Event)
    requires ConnectionsInv(s) && TableInv(s) && CoverageInv(s) && Step(s, e).Some?
    ensures CoverageInv(Step(s, e).value)
  {
    hide Step, ConnectionsInv, TableInv, PushedSomewhere;
    var s' := Step(s, e).value;
    forall i | 0 <= i < |s'.inserted| ensures s'.inserted[i] in s'.rows || s'.inserted[i].id in s'.drained {
      RowsCoveredStep(s, e, i);
    }
    forall id | id in s'.drained ensures PushedSomewhere(s', id) {
      PushedSomewhereStep(s, e, id);
    }
    forall k, i | 0 <= k < |s'.conns| && 0 <= i < |s'.conns[k].pushed| && s'.conns[k].pushed[i].Drained?
      ensures s'.conns[k].pushed[i].row.id in s'.drained
    {
      PushedRowsDrainedStep(s, e, k, i);
    }
  }

  /** The row a drain is about to delete is one it has pushed. */
  lemma DeletedWasPushed(s: State, k: nat)
    requires ConnectionsInv(s) && CoverageInv(s) && k < |s.conns| && AwaitsDelete(s.conns[k])
    ensures Drained(s.conns[k].drain.snapshot[s.conns[k].drain.gone]) in s.conns[k].pushed
    ensures s.conns[k].drain.snapshot[s.conns[k].drain.gone].id in s.drained
  {
    var c := s.conns[k];
    var r := c.drain.snapshot[c.drain.gone];
    assert ConnectionInv(c);
    assert c.drain.snapshot[..c.drain.sent][c.drain.gone] == r;
    DrainedRowsMember(c.pushed, r);
    var i :| 0 <= i < |c.pushed| && c.pushed[i] == Drained(r);
  }

  // ---------------------------------------------------------------- all together

  ghost predicate Inv(s: State) {
    ConnectionsInv(s) && AcceptedInv(s) && RegistryInv(s) && TableInv(s) && AddressInv(s) && CoverageInv(s)
  }

  lemma InvStep(s: State, e: Event)
    requires Inv(s) && Step(s, e).Some?
    ensures Inv(Step(s, e).value)
  {
    hide Step, ConnectionsInv, AcceptedInv, RegistryInv, TableInv, AddressInv, CoverageInv;
    ConnectionsInvStep(s, e);
    AcceptedInvStep(s, e);
    RegistryInvStep(s, e);
    TableInvStep(s, e);
    AddressInvStep(s, e);
    CoverageInvStep(s, e);
  }

  lemma RunLast(run: seq<Event>)
    requires run != [] && Run(run).Some?
    ensures Run(run[..|run| - 1]).Some?
    ensures Step(Run(run[..|run| - 1]).value, run[|run| - 1]) == Run(run)
  {
    hide Step;
  }

  lemma RunSnoc(run: seq<Event>, e: Event)
    requires Run(run).Some?
    ensures Run(run + [e]) == Step(Run(run).value, e)
  {
    hide Step;
    assert (run + [e])[..|run|] == run;
  }

  lemma InitialInv()
    ensures Run([]) == Some(INITIAL) && Inv(INITIAL)
  {
  }

  lemma {:induction false} InvHolds(run: seq<Event>)
    requires Run(run).Some?
    ensures Inv(Run(run).value)
  {
    hide Run, Step, Inv;
    InitialInv();
    if run != [] {
      RunLast(run);
      InvHolds(run[..|run| - 1]);
      InvStep(Run(run[..|run| - 1]).value, run[|run| - 1]);
    }
  }
}
