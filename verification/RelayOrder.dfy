/** Messages of one sender connection that took the same path to one channel keep frame order. */
module RelayOrder {
  import opened Wrappers
  import opened Relay
  import opened RelayInvariant
  import opened RelayDelivery

  /** How many accepted frames of a connection its handler is done with. */
  function SettledCount(c: Connection): int {
    |c.accepted| - (if c.handler.Idle? then 0 else 1)
  }

  predicate Settled(s: State, m: Message) {
    m.conn < |s.conns| && m.no < SettledCount(s.conns[m.conn])
  }

  /** Frame order within every sender connection, in a list of messages. */
  predicate InFrameOrder(ms: seq<Message>) {
    forall i, j :: 0 <= i < j < |ms| && ms[i].conn == ms[j].conn ==> ms[i].no < ms[j].no
  }

  function RowMessages(rows: seq<Row>): (ms: seq<Message>)
    ensures |ms| == |rows| && forall i :: 0 <= i < |rows| ==> ms[i] == rows[i].message
  {
    seq(|rows|, i requires 0 <= i < |rows| => rows[i].message)
  }

  /** Everything in the list is done with, and in frame order. */
  predicate Orderly(s: State, ms: seq<Message>) {
    InFrameOrder(ms) && forall i :: 0 <= i < |ms| ==> Settled(s, ms[i])
  }

  predicate OrderInv(s: State) {
    (forall k :: 0 <= k < |s.conns| ==> Orderly(s, LiveMessages(s.conns[k].pushed))) && Orderly(s, RowMessages(s.inserted))
  }

  lemma OwnStepSettled(s: State, e: Event, c: Connection)
    requires ConnectionInv(c) && OwnStep(s, e, c).Some?
    ensures SettledCount(c) <= SettledCount(OwnStep(s, e, c).value)
    ensures e.Insert? || (e.Send? && c.handler.Found? && SendsTo(s, c, c.handler.channel)) ==> SettledCount(OwnStep(s, e, c).value) == |c.accepted|
  {
    hide Admit, RowsFor, DrainedRows;
  }

  lemma SettledGrows(s: State, e: Event, ms: seq<Message>)
    requires ConnectionsInv(s) && Step(s, e).Some? && Orderly(s, ms)
    ensures Orderly(Step(s, e).value, ms)
  {
    hide Step, OwnStep, ConnectionInv, DrainedRows, RowsFor, Admit;
    var s' := Step(s, e).value;
    forall i | 0 <= i < |ms| ensures Settled(s', ms[i]) {
      var k := ms[i].conn;
      assert Settled(s, ms[i]);
      StepShape(s, e, k);
      if Owns(e, k) {
        OwnStepSettled(s, e, s.conns[k]);
      }
    }
  }

  /** The message a handler hands on is later than everything settled of its connection. */
  lemma HandOn(s: State, e: Event, ms: seq<Message>)
    requires ConnectionsInv(s) && AcceptedInv(s) && Step(s, e).Some? && Orderly(s, ms)
    requires (e.Send? || e.Insert?) && e.conn < |s.conns| && !s.conns[e.conn].handler.Idle?
    requires e.Send? ==> s.conns[e.conn].handler.Found? && Reaches(s, e, s.conns[e.conn].handler.channel)
    ensures Orderly(Step(s, e).value, ms + [s.conns[e.conn].handler.message])
  {
    hide Step, OwnStep, ConnectionInv, DrainedRows, RowsFor, Admit;
    var s' := Step(s, e).value;
    var m := s.conns[e.conn].handler.message;
    HandlerKnown(s, e.conn);
    StepShape(s, e, e.conn);
    OwnStepSettled(s, e, s.conns[e.conn]);
    SettledGrows(s, e, ms);
    assert Settled(s', m);
    var all := ms + [m];
    forall i | 0 <= i < |ms| && ms[i].conn == m.conn ensures ms[i].no < m.no {
      assert Settled(s, ms[i]);
    }
  }

  lemma OrderInvStep(s: State, e: Event)
    requires ConnectionsInv(s) && AcceptedInv(s) && OrderInv(s) && Step(s, e).Some?
    ensures OrderInv(Step(s, e).value)
  {
    hide Step, ConnectionsInv, AcceptedInv, Orderly, DrainedRows, Admit;
    var s' := Step(s, e).value;
    StepLength(s, e);
    TableChanges(s, e);
    forall k | 0 <= k < |s'.conns| ensures Orderly(s', LiveMessages(s'.conns[k].pushed)) {
      if k < |s.conns| {
        var live := LiveMessages(s.conns[k].pushed);
        PushesChange(s, e, k);
        SettledGrows(s, e, live);
        if s'.conns[k].pushed != s.conns[k].pushed {
          ProjectionsSnoc(s.conns[k].pushed, s'.conns[k].pushed[|s.conns[k].pushed|]);
          if e.Send? {
            HandOn(s, e, live);
          } else {
            assert live + [] == live;
          }
        }
      } else {
        NothingOrderly(s');
      }
    }
    SettledGrows(s, e, RowMessages(s.inserted));
    if e.Insert? {
      HandOn(s, e, RowMessages(s.inserted));
      assert RowMessages(s'.inserted) == RowMessages(s.inserted) + [s.conns[e.conn].handler.message];
    }
  }

  lemma NothingOrderly(s: State)
    ensures Orderly(s, [])
  {
  }

  lemma {:induction false} OrderHolds(run: seq<Event>)
    requires Run(run).Some?
    ensures OrderInv(Run(run).value)
  {
    hide Run, Step, ConnectionsInv, AcceptedInv, TableInv, RegistryInv, AddressInv, CoverageInv;
    InitialInv();
    if run != [] {
      RunLast(run);
      OrderHolds(run[..|run| - 1]);
      InvHolds(run[..|run| - 1]);
      OrderInvStep(Run(run[..|run| - 1]).value, run[|run| - 1]);
    }
  }

  // ---------------------------------------------------------------- from projections to positions

  lemma {:induction false} LivePositions(items: seq<Item>, i: nat, j: nat)
    requires i < j < |items| && items[i].Live? && items[j].Live? && InFrameOrder(LiveMessages(items))
    requires items[i].message.conn == items[j].message.conn
    ensures items[i].message.no < items[j].message.no
  {
    var before := items[..|items| - 1];
    if j < |before| {
      assert InFrameOrder(LiveMessages(before)) by {
        assert forall n :: 0 <= n < |LiveMessages(before)| ==> LiveMessages(before)[n] == LiveMessages(items)[n];
      }
      LivePositions(before, i, j);
    } else {
      LiveMember(before, i);
      var n :| 0 <= n < |LiveMessages(before)| && LiveMessages(before)[n] == items[i].message;
      assert LiveMessages(items)[n] == items[i].message;
      assert LiveMessages(items)[|LiveMessages(before)|] == items[j].message;
    }
  }

  lemma {:induction false} LiveMember(items: seq<Item>, i: nat)
    requires i < |items| && items[i].Live?
    ensures items[i].message in LiveMessages(items)
  {
    if i < |items| - 1 {
      LiveMember(items[..|items| - 1], i);
    }
  }

  lemma {:induction false} DrainedPositions(items: seq<Item>, i: nat, j: nat)
    requires i < j < |items| && items[i].Drained? && items[j].Drained? && SortedRows(DrainedRows(items))
    ensures items[i].row.id < items[j].row.id
  {
    var before := items[..|items| - 1];
    if j < |before| {
      assert SortedRows(DrainedRows(before)) by {
        assert forall n :: 0 <= n < |DrainedRows(before)| ==> DrainedRows(before)[n] == DrainedRows(items)[n];
      }
      DrainedPositions(before, i, j);
    } else {
      assert before[i] == items[i];
      DrainedRowsMember(before, items[i].row);
      var n :| 0 <= n < |DrainedRows(before)| && DrainedRows(before)[n] == items[i].row;
      assert DrainedRows(items)[n] == items[i].row;
      assert DrainedRows(items)[|DrainedRows(before)|] == items[j].row;
    }
  }

  predicate SamePath(x: Item, y: Item) {
    x.Live? == y.Live?
  }

  lemma DrainedInOrder(run: seq<Event>, s: State, k: nat, i: nat, j: nat)
    requires Run(run) == Some(s) && k < |s.conns| && i < j < |s.conns[k].pushed|
    requires s.conns[k].pushed[i].Drained? && s.conns[k].pushed[j].Drained?
    ensures var x, y := s.conns[k].pushed[i].row, s.conns[k].pushed[j].row;
            x.id < y.id && (x.message.conn == y.message.conn ==> x.message.no < y.message.no)
  {
    hide Run, LiveMessages, DrainedRows, AcceptedInv, RegistryInv, AddressInv, CoverageInv;
    InvHolds(run);
    var c := s.conns[k];
    assert SortedRows(DrainedRows(c.pushed)) by { assert ConnectionInv(c) && SnapshotInv(s, c); }
    DrainedPositions(c.pushed, i, j);
    DrainedOk(s, k, i);
    DrainedOk(s, k, j);
    hide ConnectionsInv, SortedRows;
    if c.pushed[i].row.message.conn == c.pushed[j].row.message.conn {
      RowOrder(run, s, c.pushed[i].row.id - 1, c.pushed[j].row.id - 1);
    }
  }

  /** In every channel, drained rows have increasing ids, and two messages of one sender
      connection that took the same path are in the order their frames arrived. */
  lemma SamePathOrder(run: seq<Event>, s: State, k: nat, i: nat, j: nat)
    requires Run(run) == Some(s) && k < |s.conns| && i < j < |s.conns[k].pushed|
    ensures var x, y := s.conns[k].pushed[i], s.conns[k].pushed[j];
            && (x.Drained? && y.Drained? ==> x.row.id < y.row.id)
            && (SamePath(x, y) && ItemMessage(x).conn == ItemMessage(y).conn ==> ItemMessage(x).no < ItemMessage(y).no)
  {
    hide Run, LiveMessages, InFrameOrder, Settled, RowMessages;
    var x, y := s.conns[k].pushed[i], s.conns[k].pushed[j];
    if x.Drained? && y.Drained? {
      DrainedInOrder(run, s, k, i, j);
    } else if x.Live? && y.Live? && x.message.conn == y.message.conn {
      OrderHolds(run);
      assert Orderly(s, LiveMessages(s.conns[k].pushed));
      LivePositions(s.conns[k].pushed, i, j);
    }
  }

  /** Row ids follow frame order within a sender connection. */
  lemma RowOrder(run: seq<Event>, s: State, i: nat, j: nat)
    requires Run(run) == Some(s) && i < |s.inserted| && j < |s.inserted|
    requires s.inserted[i].message.conn == s.inserted[j].message.conn
    ensures s.inserted[i].id < s.inserted[j].id <==> s.inserted[i].message.no < s.inserted[j].message.no
  {
    hide Run, ConnectionsInv, AcceptedInv, RegistryInv, AddressInv, CoverageInv;
    InvHolds(run);
    OrderHolds(run);
    assert RowMessages(s.inserted)[i] == s.inserted[i].message && RowMessages(s.inserted)[j] == s.inserted[j].message;
    assert InFrameOrder(RowMessages(s.inserted));
  }
}
