/** Every accepted message is in exactly one routing place, in every state of every run. */
module RelayConservation {
  import opened Wrappers
  import opened Relay
  import opened RelayInvariant

  type Bag = multiset<Message>

  // ---------------------------------------------------------------- sums over connections

  function Sum(f: Connection -> Bag, conns: seq<Connection>): Bag {
    if conns == [] then multiset{} else Sum(f, conns[..|conns| - 1]) + f(conns[|conns| - 1])
  }

  lemma SumSnoc(f: Connection -> Bag, conns: seq<Connection>, c: Connection, m: Message)
    ensures Sum(f, conns + [c])[m] == Sum(f, conns)[m] + f(c)[m]
  {
    assert (conns + [c])[..|conns|] == conns;
  }

  lemma {:induction false} SumUpdate(f: Connection -> Bag, conns: seq<Connection>, k: nat, c: Connection, m: Message)
    requires k < |conns|
    ensures Sum(f, conns[k := c])[m] + f(conns[k])[m] == Sum(f, conns)[m] + f(c)[m]
  {
    var last := |conns| - 1;
    if k < last {
      SumUpdate(f, conns[..last], k, c, m);
      assert conns[..last][k] == conns[k];
      assert conns[k := c][..last] == conns[..last][k := c];
    } else {
      assert conns[k := c][..last] == conns[..last];
    }
  }

  lemma {:induction false} SumEqual(f: Connection -> Bag, a: seq<Connection>, g: Connection -> Bag, b: seq<Connection>, m: Message)
    requires |a| == |b| && forall k :: 0 <= k < |a| ==> f(a[k])[m] == g(b[k])[m]
    ensures Sum(f, a)[m] == Sum(g, b)[m]
  {
    if a != [] {
      SumEqual(f, a[..|a| - 1], g, b[..|b| - 1], m);
    }
  }

  lemma {:induction false} SumOfOne(f: Connection -> Bag, conns: seq<Connection>, k: nat, m: Message)
    requires forall j :: 0 <= j < |conns| && j != k ==> f(conns[j])[m] == 0
    ensures Sum(f, conns)[m] == if k < |conns| then f(conns[k])[m] else 0
  {
    if conns != [] {
      SumOfOne(f, conns[..|conns| - 1], k, m);
    }
  }

  // ---------------------------------------------------------------- the four places

  function InHandler(c: Connection): Bag { multiset(Pending(c.handler)) }

  function PushedLive(c: Connection): Bag { multiset(LiveMessages(c.pushed)) }

  function Lost(c: Connection): Bag { multiset(c.lost) }

  function AcceptedBag(c: Connection): Bag { multiset(c.accepted) }

  function RowBag(rows: seq<Row>): Bag {
    if rows == [] then multiset{} else RowBag(rows[..|rows| - 1]) + multiset{rows[|rows| - 1].message}
  }

  /** A connection's own share of the places: its handler, its channel and its losses. */
  function Share(c: Connection): Bag { InHandler(c) + PushedLive(c) + Lost(c) }

  predicate ConservedAt(s: State, m: Message) {
    Sum(Share, s.conns)[m] + RowBag(s.inserted)[m] == Sum(AcceptedBag, s.conns)[m]
  }

  // ---------------------------------------------------------------- one step

  lemma RowBagSnoc(rows: seq<Row>, r: Row)
    ensures RowBag(rows + [r]) == RowBag(rows) + multiset{r.message}
  {
    assert (rows + [r])[..|rows|] == rows;
  }

  /** The part of a connection that the law looks at is unchanged. */
  predicate SameShare(c: Connection, c': Connection) {
    c'.handler == c.handler && LiveMessages(c'.pushed) == LiveMessages(c.pushed) && c'.lost == c.lost && c'.accepted == c.accepted
  }

  /** A local step accepts a frame, gives a pending message up, or moves no message. */
  lemma LocalStepShape(c: Connection, e: Event)
    requires LocalStep(c, e).Some?
    ensures var c' := LocalStep(c, e).value;
            c'.pushed == c.pushed
            && (|| SameShare(c, c')
                || (e.Frame? && c.handler.Idle? && c'.handler.Routing? && c'.lost == c.lost && c'.accepted == c.accepted + [c'.handler.message])
                || (c'.handler.Idle? && c'.lost == c.lost + Pending(c.handler) && c'.accepted == c.accepted))
  {
    hide Admit, LiveMessages;
  }

  lemma DrainPushShare(s: State, e: Event, c: Connection)
    requires e.Push? && OwnStep(s, e, c).Some?
    ensures var c' := OwnStep(s, e, c).value; SameShare(c.(handler := c'.handler), c') && c'.handler == c.handler
  {
    hide LocalStep, LiveMessages;
    var c' := OwnStep(s, e, c).value;
    if c'.pushed != c.pushed {
      ProjectionsSnoc(c.pushed, c'.pushed[|c.pushed|]);
      assert LiveMessages(c'.pushed) == LiveMessages(c.pushed);
    }
  }

  lemma OwnStepShape(s: State, e: Event, c: Connection)
    requires OwnStep(s, e, c).Some?
    ensures var c' := OwnStep(s, e, c).value;
            || LocalStep(c, e) == Some(c')
            || (e.Insert? && c.handler.Queueing? && c'.handler.Idle? && SameShare(c.(handler := Idle), c'))
            || (e.Send? && c.handler.Found? && SameShare(c.(handler := c'.handler), c')
                && c'.handler == if SendsTo(s, c, c.handler.channel) then Idle else Queueing(c.handler.message))
            || (!e.Insert? && !e.Send? && !e.Frame? && SameShare(c.(handler := c'.handler), c') && Pending(c'.handler) == Pending(c.handler))
  {
    hide LocalStep, RowsFor, LiveMessages, SendsTo;
    if e.Push? {
      DrainPushShare(s, e, c);
    }
  }

  lemma {:induction false} SumMember(f: Connection -> Bag, conns: seq<Connection>, k: nat, m: Message)
    requires k < |conns|
    ensures f(conns[k])[m] <= Sum(f, conns)[m]
  {
    if k < |conns| - 1 {
      SumMember(f, conns[..|conns| - 1], k, m);
    }
  }

  /** What a step of a connection moves: a frame enters both sides, an insert leaves its share,
      a successful send leaves its handler. */
  function Leaving(s: State, e: Event, c: Connection): Bag {
    if (e.Insert? && c.handler.Queueing?) || (e.Send? && c.handler.Found? && SendsTo(s, c, c.handler.channel))
    then multiset{c.handler.message} else multiset{}
  }

  function Entering(c: Connection, c': Connection): Bag {
    if c'.accepted != c.accepted && c'.handler.Routing? then multiset{c'.handler.message} else multiset{}
  }

  lemma OwnStepShare(s: State, e: Event, c: Connection, m: Message)
    requires OwnStep(s, e, c).Some?
    ensures var c' := OwnStep(s, e, c).value;
            && Share(c')[m] + Leaving(s, e, c)[m] == Share(c)[m] + Entering(c, c')[m]
            && AcceptedBag(c')[m] == AcceptedBag(c)[m] + Entering(c, c')[m]
  {
    hide OwnStep, LocalStep, LiveMessages;
    OwnStepShape(s, e, c);
    var c' := OwnStep(s, e, c).value;
    NotLocal(c, e);
    if LocalStep(c, e).Some? {
      LocalStepShape(c, e);
    }
  }

  lemma NotLocal(c: Connection, e: Event)
    ensures e.Insert? || e.Send? ==> LocalStep(c, e).None?
  {
    hide Admit;
  }

  lemma PushShare(c: Connection, x: Message, m: Message)
    ensures Share(c.(pushed := c.pushed + [Live(x)]))[m] == Share(c)[m] + multiset{x}[m]
    ensures AcceptedBag(c.(pushed := c.pushed + [Live(x)])) == AcceptedBag(c)
  {
    hide LiveMessages;
    ProjectionsSnoc(c.pushed, Live(x));
  }

  lemma EdgeShare(c: Connection, id: nat, username: string, m: Message)
    ensures Share(Crashed(c))[m] == Share(c)[m] && AcceptedBag(Crashed(c)) == AcceptedBag(c)
    ensures Share(NewConnection(id, username))[m] == 0 && AcceptedBag(NewConnection(id, username))[m] == 0
  {
    assert LiveMessages([]) == [];
  }

  /** What a step of connection k does to the whole state, in terms of its pieces. */
  lemma StepPieces(s: State, e: Event)
    requires Step(s, e).Some? && !e.Open? && !e.Restart?
    ensures e.conn < |s.conns| && OwnStep(s, e, s.conns[e.conn]).Some?
    ensures Step(s, e).value.conns == ChannelsAfter(s, e, s.conns[e.conn], s.conns[e.conn := OwnStep(s, e, s.conns[e.conn]).value])
    ensures Step(s, e).value.inserted == s.inserted + NewRows(s, e, s.conns[e.conn])
  {
    hide OwnStep, ChannelsAfter, NewRows;
  }

  lemma ConservedConnectionStep(s: State, e: Event, m: Message)
    requires Step(s, e).Some? && !e.Open? && !e.Restart? && ConservedAt(s, m)
    ensures ConservedAt(Step(s, e).value, m)
  {
    hide Step, OwnStep, Share, AcceptedBag, Sum, RowBag;
    StepPieces(s, e);
    var k, c := e.conn, s.conns[e.conn];
    var c' := OwnStep(s, e, c).value;
    var moved := s.conns[k := c'];
    OwnStepShare(s, e, c, m);
    SumUpdate(Share, s.conns, k, c', m);
    SumUpdate(AcceptedBag, s.conns, k, c', m);
    if e.Send? && c.handler.Found? && SendsTo(s, c, c.handler.channel) {
      var j, x := c.handler.channel, c.handler.message;
      PushShare(moved[j], x, m);
      SumUpdate(Share, moved, j, moved[j].(pushed := moved[j].pushed + [Live(x)]), m);
      SumUpdate(AcceptedBag, moved, j, moved[j].(pushed := moved[j].pushed + [Live(x)]), m);
      assert s.inserted + [] == s.inserted;
    } else if e.Insert? && c.handler.Queueing? {
      RowBagSnoc(s.inserted, Row(s.lastRowId + 1, c.handler.message.to, c.handler.message));
    } else {
      assert s.inserted + [] == s.inserted;
    }
  }

  lemma ConservedStep(s: State, e: Event, m: Message)
    requires Step(s, e).Some? && ConservedAt(s, m)
    ensures ConservedAt(Step(s, e).value, m)
  {
    hide OwnStep, Share, AcceptedBag, Sum, RowBag;
    if e.Open? {
      var c := NewConnection(s.nextConnectionId, e.username);
      EdgeShare(c, s.nextConnectionId, e.username, m);
      SumSnoc(Share, s.conns, c, m);
      SumSnoc(AcceptedBag, s.conns, c, m);
    } else if e.Restart? {
      forall k | 0 <= k < |s.conns|
        ensures Share(Crashed(s.conns[k]))[m] == Share(s.conns[k])[m]
        ensures AcceptedBag(Crashed(s.conns[k])) == AcceptedBag(s.conns[k])
      {
        EdgeShare(s.conns[k], 0, "", m);
      }
      SumEqual(Share, s.conns, Share, AllCrashed(s.conns), m);
      SumEqual(AcceptedBag, s.conns, AcceptedBag, AllCrashed(s.conns), m);
    } else {
      ConservedConnectionStep(s, e, m);
    }
  }

  lemma {:induction false} ConservedHolds(run: seq<Event>, m: Message)
    requires Run(run).Some?
    ensures ConservedAt(Run(run).value, m)
  {
    hide Run, Step;
    InitialInv();
    if run != [] {
      hide ConservedAt;
      RunLast(run);
      ConservedHolds(run[..|run| - 1], m);
      ConservedStep(Run(run[..|run| - 1]).value, run[|run| - 1], m);
    }
  }

  // ---------------------------------------------------------------- the law

  lemma {:induction false} ShareSplits(conns: seq<Connection>, m: Message)
    ensures Sum(Share, conns)[m] == Sum(InHandler, conns)[m] + Sum(PushedLive, conns)[m] + Sum(Lost, conns)[m]
  {
    hide InHandler, PushedLive, Lost;
    if conns != [] {
      ShareSplits(conns[..|conns| - 1], m);
    }
  }

  lemma {:induction false} DistinctOnce(ms: seq<Message>, m: Message)
    requires forall i :: 0 <= i < |ms| ==> ms[i].no == i
    ensures multiset(ms)[m] == if m.no < |ms| && ms[m.no] == m then 1 else 0
  {
    if ms != [] {
      var before, last := ms[..|ms| - 1], ms[|ms| - 1];
      assert ms == before + [last];
      DistinctOnce(before, m);
      assert multiset(ms)[m] == multiset(before)[m] + multiset{last}[m];
    }
  }

  lemma AcceptedOnce(s: State, m: Message)
    requires AcceptedInv(s)
    ensures Sum(AcceptedBag, s.conns)[m] == if Known(s, m) then 1 else 0
  {
    hide Admit;
    forall k | 0 <= k < |s.conns|
      ensures AcceptedBag(s.conns[k])[m] == if k == m.conn && Known(s, m) then 1 else 0
    {
      var c := s.conns[k];
      forall i | 0 <= i < |c.accepted| ensures c.accepted[i].no == i && c.accepted[i].conn == k {
        assert AcceptedAt(c, k, i);
      }
      DistinctOnce(c.accepted, m);
    }
    SumOfOne(AcceptedBag, s.conns, m.conn, m);
  }

  /** In every state of every run, an accepted message is in exactly one place: its handler, one
      live push into one channel, one inserted row, or the losses; and nothing else is anywhere. */
  lemma ExactlyOnePlace(run: seq<Event>, s: State, m: Message)
    requires Run(run) == Some(s)
    ensures Sum(InHandler, s.conns)[m] + Sum(PushedLive, s.conns)[m] + RowBag(s.inserted)[m] + Sum(Lost, s.conns)[m]
         == if Known(s, m) then 1 else 0
  {
    hide Run, Sum, Share, RowBag, InHandler, PushedLive, Lost, AcceptedBag, ConnectionsInv, RegistryInv, TableInv, AddressInv, CoverageInv;
    InvHolds(run);
    ConservedHolds(run, m);
    ShareSplits(s.conns, m);
    AcceptedOnce(s, m);
  }

  /** A send either reaches the found channel, or, when that channel is closed, pushes nothing
      anywhere and leaves the message to be queued. */
  lemma SendOutcome(s: State, k: nat)
    requires Step(s, Send(k)).Some?
    ensures k < |s.conns| && s.conns[k].handler.Found? && s.conns[k].handler.channel < |s.conns|
    ensures var s' := Step(s, Send(k)).value;
            var m, j := s.conns[k].handler.message, s.conns[k].handler.channel;
            |s'.conns| == |s.conns|
            && (if s.conns[j].open then s'.conns[k].handler == Idle && s'.conns[j].pushed == s.conns[j].pushed + [Live(m)]
                else s'.conns[k].handler == Queueing(m) && forall i :: 0 <= i < |s.conns| ==> s'.conns[i].pushed == s.conns[i].pushed)
  {
    hide LocalStep;
  }
}
