/**
 * The interleaved relay simulates one bag of messages per recipient (a message names its
 * recipient), whose only actions are accept, queue, hand over, duplicate a message that was
 * queued, and lose.
 */
module RelaySimulation {
  import opened Wrappers
  import opened Relay
  import opened RelayInvariant
  import opened RelayDelivery
  import opened RelayOrder
  import opened RelayFresh
  import opened RelayConservation

  // ---------------------------------------------------------------- the abstract relay

  /** Messages on their way, messages written to a socket of their addressee, messages lost; and
      which messages were ever queued. */
  datatype Abstract = Abstract(held: Bag, delivered: Bag, lost: Bag, queued: set<Message>)

  datatype Action =
    | Accept(m: Message)
    | Enqueue(m: Message)
    | HandOver(user: string, m: Message)
    | Duplicate(m: Message)
    | Lose(ms: Bag)
    | Skip

  const NOTHING := Abstract(multiset{}, multiset{}, multiset{}, {})

  /** None when the action is not allowed. */
  function Act(a: Abstract, x: Action): Option<Abstract> {
    match x
    case Accept(m) => if m in a.held + a.delivered + a.lost then None else Some(a.(held := a.held + multiset{m}))
    case Enqueue(m) => if m !in a.held || m in a.queued then None else Some(a.(queued := a.queued + {m}))
    case HandOver(user, m) =>
      if m !in a.held || m.to != user then None
      else Some(a.(held := a.held - multiset{m}, delivered := a.delivered + multiset{m}))
    case Duplicate(m) => if m !in a.queued then None else Some(a.(held := a.held + multiset{m}))
    case Lose(ms) => if ms <= a.held then Some(a.(held := a.held - ms, lost := a.lost + ms)) else None
    case Skip => Some(a)
  }

  function ActAll(xs: seq<Action>): Option<Abstract> {
    if xs == [] then Some(NOTHING)
    else
      match ActAll(xs[..|xs| - 1])
      case None => None
      case Some(a) => Act(a, xs[|xs| - 1])
  }

  // ---------------------------------------------------------------- the abstraction

  function ItemBag(items: seq<Item>): Bag {
    if items == [] then multiset{} else ItemBag(items[..|items| - 1]) + multiset{ItemMessage(items[|items| - 1])}
  }

  /** What the outbound channel still buffers. */
  function Unwritten(c: Connection): Bag {
    if c.written <= |c.pushed| then ItemBag(c.pushed[c.written..]) else multiset{}
  }

  function Written(c: Connection): Bag {
    if c.written <= |c.pushed| then ItemBag(c.pushed[..c.written]) else multiset{}
  }

  function Held(c: Connection): Bag {
    multiset(Pending(c.handler)) + (if c.open then Unwritten(c) else multiset{})
  }

  /** What a connection's handlers gave up and what its channel still buffered when it was dropped. */
  function Dropped(c: Connection): Bag {
    multiset(c.lost) + (if c.open then multiset{} else Unwritten(c))
  }

  /** The queued messages that no drain has pushed yet. */
  function QueueBag(rows: seq<Row>, drained: set<nat>): Bag {
    if rows == [] then multiset{}
    else (if rows[0].id in drained then multiset{} else multiset{rows[0].message}) + QueueBag(rows[1..], drained)
  }

  function EverQueued(s: State): set<Message> {
    set i | 0 <= i < |s.inserted| :: s.inserted[i].message
  }

  function Abstraction(s: State): Abstract {
    Abstract(Sum(Held, s.conns) + QueueBag(s.rows, s.drained), Sum(Written, s.conns), Sum(Dropped, s.conns), EverQueued(s))
  }

  // ---------------------------------------------------------------- the action of a step

  /** What a step gives up: pending work of a handler, or the buffer of a dropped channel. */
  function Loss(c: Connection, e: Event): Bag {
    match e
    case InsertFail(_) => multiset(Pending(c.handler))
    case Abort(_) => multiset(Pending(c.handler))
    case WriteFail(_) => Unwritten(c)
    case CloseChannel(_) => Unwritten(c)
    case _ => multiset{}
  }

  function Handed(c: Connection, e: Event): Bag {
    if e.Write? && c.written < |c.pushed| then multiset{ItemMessage(c.pushed[c.written])} else multiset{}
  }

  /** The drain pushes a row that was pushed before. */
  predicate PushesAgain(s: State, e: Event, c: Connection) {
    e.Push? && CanPush(c) && c.open && c.drain.snapshot[c.drain.sent].id in s.drained
  }

  function PushedRow(c: Connection, e: Event): Bag {
    if e.Push? && CanPush(c) && c.open then multiset{c.drain.snapshot[c.drain.sent].message} else multiset{}
  }

  function FrameAction(c: Connection, k: nat, frame: string): Action {
    match Admit(c.username, frame)
    case Admitted(to, payload) => Accept(Message(k, |c.accepted|, to, payload, frame))
    case _ => Skip
  }

  function ConnectionAction(s: State, e: Event, c: Connection): Action {
    match e
    case Frame(k, frame) => FrameAction(c, k, frame)
    case Write(_) => if c.written < |c.pushed| then HandOver(c.username, ItemMessage(c.pushed[c.written])) else Skip
    case Push(_) =>
      if PushesAgain(s, e, c) then Duplicate(c.drain.snapshot[c.drain.sent].message) else Skip
    case Insert(_) => if c.handler.Queueing? then Enqueue(c.handler.message) else Skip
    case InsertFail(_) => Lose(Loss(c, e))
    case Abort(_) => Lose(Loss(c, e))
    case WriteFail(_) => Lose(Loss(c, e))
    case CloseChannel(_) => Lose(Loss(c, e))
    case _ => Skip
  }

  function ActionOf(s: State, e: Event): Action {
    if e.Open? then Skip
    else if e.Restart? then Lose(Sum(Held, s.conns))
    else if e.conn < |s.conns| then ConnectionAction(s, e, s.conns[e.conn]) else Skip
  }

  function Actions(run: seq<Event>): seq<Action> {
    if run == [] then []
    else
      match Run(run[..|run| - 1])
      case None => []
      case Some(s) => Actions(run[..|run| - 1]) + [ActionOf(s, run[|run| - 1])]
  }

  // ---------------------------------------------------------------- one connection

  lemma {:induction false} ItemBagConcat(a: seq<Item>, b: seq<Item>, m: Message)
    ensures ItemBag(a + b)[m] == ItemBag(a)[m] + ItemBag(b)[m]
  {
    if b == [] {
      assert a + b == a;
    } else {
      assert (a + b)[..|a + b| - 1] == a + b[..|b| - 1];
      ItemBagConcat(a, b[..|b| - 1], m);
    }
  }

  lemma ItemBagOne(x: Item)
    ensures ItemBag([x]) == multiset{ItemMessage(x)}
  {
    assert [x][..0] == [];
  }

  lemma WriteMoves(c: Connection, m: Message)
    requires c.written < |c.pushed|
    ensures Unwritten(c)[m] == Unwritten(c.(written := c.written + 1))[m] + multiset{ItemMessage(c.pushed[c.written])}[m]
    ensures Written(c.(written := c.written + 1))[m] == Written(c)[m] + multiset{ItemMessage(c.pushed[c.written])}[m]
  {
    hide ItemBag;
    var x := c.pushed[c.written];
    assert c.pushed[c.written..] == [x] + c.pushed[c.written + 1..];
    assert c.pushed[..c.written + 1] == c.pushed[..c.written] + [x];
    ItemBagConcat([x], c.pushed[c.written + 1..], m);
    ItemBagConcat(c.pushed[..c.written], [x], m);
    ItemBagOne(x);
  }

  lemma PushMoves(c: Connection, x: Item, m: Message)
    requires c.written <= |c.pushed|
    ensures Unwritten(c.(pushed := c.pushed + [x]))[m] == Unwritten(c)[m] + multiset{ItemMessage(x)}[m]
    ensures Written(c.(pushed := c.pushed + [x])) == Written(c)
  {
    hide ItemBag;
    assert (c.pushed + [x])[c.written..] == c.pushed[c.written..] + [x];
    assert (c.pushed + [x])[..c.written] == c.pushed[..c.written];
    ItemBagConcat(c.pushed[c.written..], [x], m);
    ItemBagOne(x);
  }

  /** How the parts of a connection that the abstraction reads change in a local step. */
  lemma LocalStepParts(c: Connection, e: Event)
    requires LocalStep(c, e).Some?
    ensures var c' := LocalStep(c, e).value;
            && c'.pushed == c.pushed
            && (if e.Write? then c.written < |c.pushed| && c.open && c' == c.(written := c.written + 1) else c'.written == c.written)
            && (if e.WriteFail? || e.CloseChannel? then c.open && c' == c.(open := false) else c'.open == c.open)
            && (e.InsertFail? || e.Abort? ==> c'.handler == Idle && c'.lost == c.lost + Pending(c.handler))
            && (e.Frame? ==> c'.lost == c.lost
                             && (c' == c || (c.handler == Idle && c'.accepted != c.accepted && c'.handler.Routing?)))
            && (!e.Frame? && !e.InsertFail? && !e.Abort? ==> c'.handler == c.handler && c'.lost == c.lost)
            && (!e.Frame? ==> c'.accepted == c.accepted)
  {
    hide Admit;
  }

  lemma SameBuffer(c: Connection, c': Connection)
    requires c'.pushed == c.pushed && c'.written == c.written
    ensures Written(c') == Written(c) && Unwritten(c') == Unwritten(c)
  {
  }

  lemma WriteMovement(c: Connection, e: Event, m: Message)
    requires e.Write? && c.written < |c.pushed| && c.open
    ensures var c' := c.(written := c.written + 1);
            && Held(c')[m] + Handed(c, e)[m] == Held(c)[m] && Entering(c, c')[m] == 0 && Loss(c, e)[m] == 0
            && Written(c')[m] == Written(c)[m] + Handed(c, e)[m]
            && Dropped(c')[m] == Dropped(c)[m]
  {
    hide Unwritten, Written;
    WriteMoves(c, m);
  }

  lemma DropMovement(c: Connection, e: Event, m: Message)
    requires (e.WriteFail? || e.CloseChannel?) && c.open
    ensures var c' := c.(open := false);
            && Held(c')[m] + Loss(c, e)[m] == Held(c)[m] && Entering(c, c')[m] == 0 && Handed(c, e)[m] == 0
            && Written(c')[m] == Written(c)[m]
            && Dropped(c')[m] == Dropped(c)[m] + Loss(c, e)[m]
  {
    hide ItemBag, Unwritten, Written;
    SameBuffer(c, c.(open := false));
  }

  lemma GivingUpMovement(c: Connection, e: Event, c': Connection, m: Message)
    requires (e.InsertFail? || e.Abort?) && c'.pushed == c.pushed && c'.written == c.written && c'.open == c.open
    requires c'.handler == Idle && c'.lost == c.lost + Pending(c.handler) && c'.accepted == c.accepted
    ensures Held(c')[m] + Loss(c, e)[m] == Held(c)[m] && Entering(c, c')[m] == 0 && Handed(c, e)[m] == 0
    ensures Written(c')[m] == Written(c)[m] && Dropped(c')[m] == Dropped(c)[m] + Loss(c, e)[m]
  {
    hide Unwritten, Written, ItemMessage;
    SameBuffer(c, c');
    PendingMoves(c, c');
  }

  lemma HandlerMovement(c: Connection, e: Event, c': Connection, m: Message)
    requires !e.Write? && !e.WriteFail? && !e.CloseChannel? && !e.InsertFail? && !e.Abort?
    requires c'.pushed == c.pushed && c'.written == c.written && c'.open == c.open && c'.lost == c.lost
    requires (c'.handler == c.handler && c'.accepted == c.accepted) || (c.handler == Idle && c'.accepted != c.accepted && c'.handler.Routing?)
    ensures Held(c')[m] == Held(c)[m] + Entering(c, c')[m] && Loss(c, e)[m] == 0 && Handed(c, e)[m] == 0
    ensures Written(c')[m] == Written(c)[m] && Dropped(c')[m] == Dropped(c)[m]
  {
    hide Unwritten, Written, ItemMessage;
    SameBuffer(c, c');
  }

  lemma PendingMoves(c: Connection, c': Connection)
    requires c'.lost == c.lost + Pending(c.handler)
    ensures multiset(c'.lost) == multiset(c.lost) + multiset(Pending(c.handler))
  {
  }

  lemma LocalStepMoves(c: Connection, e: Event, m: Message)
    requires LocalStep(c, e).Some? && c.written <= |c.pushed|
    ensures var c' := LocalStep(c, e).value;
            && Held(c')[m] + Loss(c, e)[m] + Handed(c, e)[m] == Held(c)[m] + Entering(c, c')[m]
            && Written(c')[m] == Written(c)[m] + Handed(c, e)[m]
            && Dropped(c')[m] == Dropped(c)[m] + Loss(c, e)[m]
  {
    hide LocalStep, Held, Dropped, Unwritten, Written, Loss, Handed, Entering;
    LocalStepParts(c, e);
    if e.Write? {
      WriteMovement(c, e, m);
    } else if e.WriteFail? || e.CloseChannel? {
      DropMovement(c, e, m);
    } else if e.InsertFail? || e.Abort? {
      GivingUpMovement(c, e, LocalStep(c, e).value, m);
    } else {
      HandlerMovement(c, e, LocalStep(c, e).value, m);
    }
  }

  lemma SharedStepParts(s: State, e: Event, c: Connection)
    requires OwnStep(s, e, c).Some? && LocalStep(c, e) != OwnStep(s, e, c)
    ensures var c' := OwnStep(s, e, c).value;
            && c'.accepted == c.accepted && c'.lost == c.lost && c'.open == c.open && c'.written == c.written
            && (e.Push? && c.open ==> CanPush(c) && c'.pushed == c.pushed + [Drained(c.drain.snapshot[c.drain.sent])])
            && (!(e.Push? && c.open) ==> c'.pushed == c.pushed)
            && (e.Insert? ==> c.handler.Queueing? && c'.handler == Idle)
            && (e.Send? ==> c.handler.Found? && c'.handler == if SendsTo(s, c, c.handler.channel) then Idle else Queueing(c.handler.message))
            && (!e.Insert? && !e.Send? ==> Pending(c'.handler) == Pending(c.handler))
            && !e.Frame? && !e.Write? && !e.WriteFail? && !e.CloseChannel? && !e.InsertFail? && !e.Abort?
  {
    hide Admit, RowsFor;
  }

  lemma SharedMovement(s: State, e: Event, c: Connection, m: Message)
    requires OwnStep(s, e, c).Some? && LocalStep(c, e) != OwnStep(s, e, c) && c.written <= |c.pushed| && !(e.Push? && c.open)
    ensures var c' := OwnStep(s, e, c).value;
            && Held(c')[m] + Leaving(s, e, c)[m] == Held(c)[m] && Written(c') == Written(c) && Dropped(c') == Dropped(c)
            && Loss(c, e)[m] == 0 && Handed(c, e)[m] == 0 && Entering(c, c')[m] == 0 && PushedRow(c, e)[m] == 0
  {
    hide OwnStep, LocalStep, Unwritten, Written, SendsTo;
    SharedStepParts(s, e, c);
    SameBuffer(c, OwnStep(s, e, c).value);
  }

  lemma PushMovement(s: State, e: Event, c: Connection, m: Message)
    requires e.Push? && c.open && OwnStep(s, e, c).Some? && LocalStep(c, e) != OwnStep(s, e, c) && c.written <= |c.pushed|
    ensures var c' := OwnStep(s, e, c).value;
            && Held(c')[m] == Held(c)[m] + PushedRow(c, e)[m] && Written(c') == Written(c) && Dropped(c') == Dropped(c)
            && Loss(c, e)[m] == 0 && Handed(c, e)[m] == 0 && Entering(c, c')[m] == 0 && Leaving(s, e, c)[m] == 0
  {
    hide OwnStep, LocalStep, Unwritten, Written;
    var c' := OwnStep(s, e, c).value;
    SharedStepParts(s, e, c);
    PushMoves(c, Drained(c.drain.snapshot[c.drain.sent]), m);
    SameBuffer(c.(pushed := c'.pushed), c');
  }

  lemma OwnStepMoves(s: State, e: Event, c: Connection, m: Message)
    requires OwnStep(s, e, c).Some? && c.written <= |c.pushed|
    ensures var c' := OwnStep(s, e, c).value;
            && Held(c')[m] + Loss(c, e)[m] + Handed(c, e)[m] + Leaving(s, e, c)[m] == Held(c)[m] + Entering(c, c')[m] + PushedRow(c, e)[m]
            && Written(c')[m] == Written(c)[m] + Handed(c, e)[m]
            && Dropped(c')[m] == Dropped(c)[m] + Loss(c, e)[m]
  {
    hide OwnStep, LocalStep, Held, Dropped, Unwritten, Written, Loss, Handed, Entering;
    SharedEvents(s, e, c);
    if LocalStep(c, e) == OwnStep(s, e, c) {
      LocalStepMoves(c, e, m);
    } else if e.Push? && c.open {
      PushMovement(s, e, c, m);
    } else {
      SharedMovement(s, e, c, m);
    }
  }

  lemma SharedEvents(s: State, e: Event, c: Connection)
    ensures e.Push? || e.Insert? || e.Send? ==> LocalStep(c, e).None?
  {
    hide Admit;
  }

  // ---------------------------------------------------------------- the table

  lemma {:induction false} QueueSnoc(rows: seq<Row>, r: Row, drained: set<nat>, m: Message)
    ensures QueueBag(rows + [r], drained)[m] == QueueBag(rows, drained)[m] + (if r.id in drained then 0 else multiset{r.message}[m])
  {
    if rows == [] {
      assert [] + [r] == [r] && [r][1..] == [];
    } else {
      assert (rows + [r])[1..] == rows[1..] + [r];
      QueueSnoc(rows[1..], r, drained, m);
    }
  }

  lemma {:induction false} QueueDelete(rows: seq<Row>, id: nat, drained: set<nat>, m: Message)
    requires id in drained
    ensures QueueBag(WithoutRow(rows, id), drained)[m] == QueueBag(rows, drained)[m]
  {
    if rows != [] {
      QueueDelete(rows[1..], id, drained, m);
      var rest := WithoutRow(rows[1..], id);
      if rows[0].id == id {
        assert WithoutRow(rows, id) == rest;
      } else {
        assert WithoutRow(rows, id) == [rows[0]] + rest && ([rows[0]] + rest)[1..] == rest;
      }
    }
  }

  lemma {:induction false} QueueAbsent(rows: seq<Row>, id: nat, drained: set<nat>)
    requires forall r :: r in rows ==> r.id != id
    ensures QueueBag(rows, drained + {id}) == QueueBag(rows, drained)
  {
    if rows != [] {
      assert rows[0] in rows && forall r :: r in rows[1..] ==> r in rows;
      QueueAbsent(rows[1..], id, drained);
    }
  }

  lemma {:induction false} QueuePush(rows: seq<Row>, r: Row, drained: set<nat>, m: Message)
    requires SortedRows(rows) && r in rows && r.id !in drained
    ensures QueueBag(rows, drained)[m] == QueueBag(rows, drained + {r.id})[m] + multiset{r.message}[m]
  {
    if rows[0] == r {
      QueueAbsent(rows[1..], r.id, drained);
    } else {
      assert r in rows[1..] by {
        var i :| 0 <= i < |rows| && rows[i] == r;
        assert rows[1..][i - 1] == r;
      }
      assert rows[0].id != r.id;
      QueuePush(rows[1..], r, drained, m);
    }
  }

  /** The queue's part of the abstraction grows by an insert and shrinks by the first push of a row. */
  lemma QueueMoves(s: State, e: Event, m: Message)
    requires TableInv(s) && CoverageInv(s) && ConnectionsInv(s) && Step(s, e).Some? && !e.Open? && !e.Restart?
    ensures e.conn < |s.conns|
    ensures QueueBag(Step(s, e).value.rows, Step(s, e).value.drained)[m]
            + (if PushesAgain(s, e, s.conns[e.conn]) then 0 else PushedRow(s.conns[e.conn], e)[m])
         == QueueBag(s.rows, s.drained)[m]
            + (if e.Insert? && s.conns[e.conn].handler.Queueing? then multiset{s.conns[e.conn].handler.message}[m] else 0)
  {
    hide Step, ConnectionsInv, QueueBag, WithoutRow;
    StepLength(s, e);
    TableChanges(s, e);
    DrainedAfterStep(s, e);
    var c := s.conns[e.conn];
    if e.Insert? {
      DrainedIdsSmall(s, s.lastRowId + 1);
      QueueSnoc(s.rows, Row(s.lastRowId + 1, c.handler.message.to, c.handler.message), s.drained, m);
    } else if e.Delete? {
      DeletedWasPushed(s, e.conn);
      QueueDelete(s.rows, c.drain.snapshot[c.drain.gone].id, s.drained, m);
    } else if e.Push? && CanPush(c) && c.open {
      var r := c.drain.snapshot[c.drain.sent];
      assert SnapshotInv(s, c) && EverInserted(s, r);
      if r.id in s.drained {
        assert s.drained + {r.id} == s.drained;
      } else {
        QueuePush(s.rows, r, s.drained, m);
      }
    }
  }

  lemma DrainedAfterStep(s: State, e: Event)
    requires Step(s, e).Some? && !e.Open? && !e.Restart?
    ensures e.conn < |s.conns| && Step(s, e).value.drained == DrainedAfter(s, e, s.conns[e.conn])
  {
    hide OwnStep;
  }

  lemma DrainedIdsSmall(s: State, id: nat)
    requires TableInv(s) && CoverageInv(s) && id > s.lastRowId
    ensures id !in s.drained
  {
    assert !PushedSomewhere(s, id);
  }

  // ---------------------------------------------------------------- one step

  /** A push into a channel, open or not, changes neither what was written nor what was dropped. */
  lemma SendMoves(c: Connection, x: Message, m: Message)
    requires c.written <= |c.pushed| && c.open
    ensures var c' := c.(pushed := c.pushed + [Live(x)]);
            Held(c')[m] == Held(c)[m] + multiset{x}[m] && Written(c') == Written(c) && Dropped(c') == Dropped(c)
  {
    hide ItemBag;
    PushMoves(c, Live(x), m);
  }

  /** The balance of a connection's step: what enters, moves on, is handed over or is lost. */
  lemma Movement(s: State, e: Event, m: Message)
    requires Inv(s) && Step(s, e).Some? && !e.Open? && !e.Restart?
    ensures e.conn < |s.conns| && OwnStep(s, e, s.conns[e.conn]).Some?
    ensures var a, a' := Abstraction(s), Abstraction(Step(s, e).value);
            var c := s.conns[e.conn];
            && a'.held[m] + Loss(c, e)[m] + Handed(c, e)[m]
               == a.held[m] + Entering(c, OwnStep(s, e, c).value)[m] + (if PushesAgain(s, e, c) then PushedRow(c, e)[m] else 0)
            && a'.delivered[m] == a.delivered[m] + Handed(c, e)[m]
            && a'.lost[m] == a.lost[m] + Loss(c, e)[m]
  {
    hide Step, OwnStep, Held, Written, Dropped, Sum, QueueBag, PushedRow, Loss, Handed, Entering, DrainedRows;
    StepPieces(s, e);
    QueueMoves(s, e, m);
    var k, c := e.conn, s.conns[e.conn];
    var c' := OwnStep(s, e, c).value;
    var moved := s.conns[k := c'];
    assert ConnectionInv(c);
    OwnStepMoves(s, e, c, m);
    SumUpdate(Held, s.conns, k, c', m);
    SumUpdate(Written, s.conns, k, c', m);
    SumUpdate(Dropped, s.conns, k, c', m);
    if e.Send? && c.handler.Found? && SendsTo(s, c, c.handler.channel) {
      var j, x := c.handler.channel, c.handler.message;
      assert ConnectionInv(s.conns[j]);
      SendKeepsOpen(s, e, c);
      SendMoves(moved[j], x, m);
      var pushed := moved[j].(pushed := moved[j].pushed + [Live(x)]);
      SumUpdate(Held, moved, j, pushed, m);
      SumUpdate(Written, moved, j, pushed, m);
      SumUpdate(Dropped, moved, j, pushed, m);
    }
  }

  lemma SendKeepsOpen(s: State, e: Event, c: Connection)
    requires e.Send? && OwnStep(s, e, c).Some?
    ensures OwnStep(s, e, c).value.open == c.open && OwnStep(s, e, c).value.written == c.written && OwnStep(s, e, c).value.pushed == c.pushed
  {
    hide LocalStep;
  }

  function HeldOrDropped(c: Connection): Bag { Held(c) + Dropped(c) }

  lemma {:induction false} SumHeldOrDropped(conns: seq<Connection>, m: Message)
    ensures Sum(HeldOrDropped, conns)[m] == Sum(Held, conns)[m] + Sum(Dropped, conns)[m]
  {
    hide Held, Dropped;
    if conns != [] {
      SumHeldOrDropped(conns[..|conns| - 1], m);
    }
  }

  function Empty(c: Connection): Bag { multiset{} }

  lemma {:induction false} SumEmpty(conns: seq<Connection>, m: Message)
    ensures Sum(Empty, conns)[m] == 0
  {
    if conns != [] {
      SumEmpty(conns[..|conns| - 1], m);
    }
  }

  lemma CrashMoves(c: Connection, m: Message)
    ensures Held(Crashed(c))[m] == 0 && Written(Crashed(c)) == Written(c) && Dropped(Crashed(c))[m] == HeldOrDropped(c)[m]
  {
    hide ItemBag;
  }

  lemma RestartMovement(s: State, m: Message)
    ensures var a, a' := Abstraction(s), Abstraction(Step(s, Restart).value);
            && a'.held[m] + Sum(Held, s.conns)[m] == a.held[m]
            && a'.delivered[m] == a.delivered[m]
            && a'.lost[m] == a.lost[m] + Sum(Held, s.conns)[m]
            && a'.queued == a.queued
  {
    hide Sum, Held, Written, Dropped, HeldOrDropped, QueueBag;
    var conns' := AllCrashed(s.conns);
    forall k | 0 <= k < |s.conns|
      ensures Held(conns'[k])[m] == Empty(s.conns[k])[m] && Written(conns'[k]) == Written(s.conns[k])
      ensures Dropped(conns'[k])[m] == HeldOrDropped(s.conns[k])[m]
    {
      CrashMoves(s.conns[k], m);
    }
    SumEqual(Held, conns', Empty, s.conns, m);
    SumEmpty(s.conns, m);
    SumEqual(Written, conns', Written, s.conns, m);
    SumEqual(Dropped, conns', HeldOrDropped, s.conns, m);
    SumHeldOrDropped(s.conns, m);
  }

  lemma OpenMovement(s: State, u: string)
    requires Step(s, Open(u)).Some?
    ensures Abstraction(Step(s, Open(u)).value) == Abstraction(s)
  {
    hide Sum, Held, Written, Dropped, QueueBag;
    var c := NewConnection(s.nextConnectionId, u);
    forall m: Message
      ensures Sum(Held, s.conns + [c])[m] == Sum(Held, s.conns)[m]
      ensures Sum(Written, s.conns + [c])[m] == Sum(Written, s.conns)[m]
      ensures Sum(Dropped, s.conns + [c])[m] == Sum(Dropped, s.conns)[m]
    {
      SumSnoc(Held, s.conns, c, m);
      SumSnoc(Written, s.conns, c, m);
      SumSnoc(Dropped, s.conns, c, m);
      NewMoves(s.nextConnectionId, u, m);
    }
  }

  lemma NewMoves(id: nat, u: string, m: Message)
    ensures var c := NewConnection(id, u); Held(c)[m] == 0 && Written(c)[m] == 0 && Dropped(c)[m] == 0
  {
  }

  // ---------------------------------------------------------------- what is known is somewhere

  function Total(s: State, m: Message): nat {
    Abstraction(s).held[m] + Abstraction(s).delivered[m] + Abstraction(s).lost[m]
  }

  /** The messages of the abstract relay are exactly the accepted ones. */
  predicate TotalOk(s: State, m: Message) {
    Total(s, m) > 0 <==> Known(s, m)
  }

  /** Acceptance histories change by what enters, in the moving connection only. */
  lemma AcceptedMoves(s: State, e: Event, k: nat)
    requires Step(s, e).Some? && k < |s.conns| && !e.Open? && !e.Restart?
    ensures e.conn < |s.conns| && OwnStep(s, e, s.conns[e.conn]).Some? && k < |Step(s, e).value.conns|
    ensures var c, c' := s.conns[e.conn], OwnStep(s, e, s.conns[e.conn]).value;
            Step(s, e).value.conns[k].accepted == if k == e.conn then c'.accepted else s.conns[k].accepted
    ensures var c, c' := s.conns[e.conn], OwnStep(s, e, s.conns[e.conn]).value;
            c'.accepted == c.accepted || (c'.handler.Routing? && c'.accepted == c.accepted + [c'.handler.message])
  {
    hide Step, OwnStep;
    StepLength(s, e);
    StepShape(s, e, k);
    AcceptedShape(s, e, s.conns[e.conn]);
  }

  lemma FrameKnown(s: State, e: Event, m: Message)
    requires AcceptedInv(s) && Step(s, e).Some? && !e.Open? && !e.Restart?
    ensures e.conn < |s.conns| && OwnStep(s, e, s.conns[e.conn]).Some?
    ensures Known(Step(s, e).value, m) <==> Known(s, m) || Entering(s.conns[e.conn], OwnStep(s, e, s.conns[e.conn]).value)[m] > 0
  {
    hide Step, OwnStep, Admit, AcceptedInv;
    var s' := Step(s, e).value;
    StepLength(s, e);
    AcceptedMoves(s, e, e.conn);
    if m.conn < |s.conns| {
      AcceptedMoves(s, e, m.conn);
    }
    AcceptedInvStep(s, e);
    EnteringNamed(s', e.conn);
  }

  /** The last accepted message of a connection names that connection and position. */
  lemma EnteringNamed(s: State, k: nat)
    requires AcceptedInv(s) && k < |s.conns|
    ensures s.conns[k].accepted != [] ==>
              var m := s.conns[k].accepted[|s.conns[k].accepted| - 1]; m.conn == k && m.no == |s.conns[k].accepted| - 1
  {
    hide Admit;
    if s.conns[k].accepted != [] {
      assert AcceptedAt(s.conns[k], k, |s.conns[k].accepted| - 1);
    }
  }

  lemma AcceptedShape(s: State, e: Event, c: Connection)
    requires !e.Open? && !e.Restart? && OwnStep(s, e, c).Some?
    ensures var c' := OwnStep(s, e, c).value;
            c'.accepted == c.accepted || (c'.handler.Routing? && c'.accepted == c.accepted + [c'.handler.message])
  {
    hide Admit, RowsFor;
  }

  /** The row a drain pushes carries an accepted message. */
  lemma PushedRowKnown(s: State, e: Event, k: nat, m: Message)
    requires Inv(s) && k < |s.conns| && PushedRow(s.conns[k], e)[m] > 0
    ensures Known(s, m)
  {
    hide ConnectionsInv, AcceptedInv, RegistryInv, CoverageInv;
    var c := s.conns[k];
    var r := c.drain.snapshot[c.drain.sent];
    assert SnapshotInv(s, c) && EverInserted(s, r);
    assert m == r.message;
  }

  lemma TotalStep(s: State, e: Event, m: Message)
    requires Inv(s) && Step(s, e).Some? && TotalOk(s, m)
    ensures TotalOk(Step(s, e).value, m)
  {
    hide Step, OwnStep, Abstraction, ConnectionsInv, RegistryInv, TableInv, AddressInv, CoverageInv, AcceptedInv, Loss, Handed, Entering, PushedRow;
    if e.Open? {
      OpenMovement(s, e.username);
      EdgeKnown(s, e, m);
    } else if e.Restart? {
      RestartMovement(s, m);
      EdgeKnown(s, e, m);
    } else {
      Movement(s, e, m);
      FrameKnown(s, e, m);
      if PushesAgain(s, e, s.conns[e.conn]) && PushedRow(s.conns[e.conn], e)[m] > 0 {
        PushedRowKnown(s, e, e.conn, m);
      }
    }
  }

  lemma EdgeKnown(s: State, e: Event, m: Message)
    requires Step(s, e).Some? && (e.Open? || e.Restart?)
    ensures Known(Step(s, e).value, m) <==> Known(s, m)
  {
  }

  lemma {:induction false} TotalHolds(run: seq<Event>, m: Message)
    requires Run(run).Some?
    ensures TotalOk(Run(run).value, m)
  {
    hide Run, Step, Inv;
    if run != [] {
      hide TotalOk;
      RunLast(run);
      TotalHolds(run[..|run| - 1], m);
      InvHolds(run[..|run| - 1]);
      TotalStep(Run(run[..|run| - 1]).value, run[|run| - 1], m);
    } else {
      InitialInv();
    }
  }

  // ---------------------------------------------------------------- the simulation

  lemma FrameEntering(s: State, e: Event, c: Connection)
    requires e.Frame? && OwnStep(s, e, c).Some?
    ensures var x := FrameAction(c, e.conn, e.frame);
            Entering(c, OwnStep(s, e, c).value) == if x.Accept? then multiset{x.m} else multiset{}
    ensures FrameAction(c, e.conn, e.frame).Accept? ==>
              FrameAction(c, e.conn, e.frame).m.conn == e.conn && FrameAction(c, e.conn, e.frame).m.no == |c.accepted|
    ensures FrameAction(c, e.conn, e.frame).Accept? || FrameAction(c, e.conn, e.frame).Skip?
  {
    hide Admit;
  }

  lemma NothingEnters(s: State, e: Event, c: Connection)
    requires !e.Open? && !e.Restart? && !e.Frame? && OwnStep(s, e, c).Some?
    ensures Entering(c, OwnStep(s, e, c).value) == multiset{}
  {
    hide Admit, RowsFor;
  }

  lemma WriteHandsOver(s: State, k: nat)
    requires Inv(s) && Step(s, Write(k)).Some?
    ensures k < |s.conns| && s.conns[k].written < |s.conns[k].pushed|
    ensures ItemMessage(s.conns[k].pushed[s.conns[k].written]).to == s.conns[k].username
  {
    hide Step, Admit, DrainedRows, RegistryInv, CoverageInv, AcceptedInv;
    StepLength(s, Write(k));
    var i := s.conns[k].written;
    assert LiveOk(s, s.conns[k], s.conns[k].pushed[i]);
    if s.conns[k].pushed[i].Drained? {
      DrainedOk(s, k, i);
    }
  }

  /** What changes, counted for every message, when a step enters, duplicates, hands over and loses. */
  ghost predicate Moves(a: Abstract, a': Abstract, entering: Bag, handed: Bag, loss: Bag) {
    && (forall m :: a'.held[m] + loss[m] + handed[m] == a.held[m] + entering[m])
    && (forall m :: a'.delivered[m] == a.delivered[m] + handed[m])
    && (forall m :: a'.lost[m] == a.lost[m] + loss[m])
  }

  lemma MovesIn(a: Abstract, a': Abstract, m: Message)
    requires Moves(a, a', multiset{m}, multiset{}, multiset{}) && a'.queued == a.queued
    ensures m !in a.held + a.delivered + a.lost ==> Act(a, Accept(m)) == Some(a')
    ensures m in a.queued ==> Act(a, Duplicate(m)) == Some(a')
  {
    assert a'.held == a.held + multiset{m} && a'.delivered == a.delivered && a'.lost == a.lost;
  }

  lemma MovesOut(a: Abstract, a': Abstract, user: string, m: Message)
    requires Moves(a, a', multiset{}, multiset{m}, multiset{}) && m.to == user && a'.queued == a.queued
    ensures Act(a, HandOver(user, m)) == Some(a')
  {
    assert a'.held[m] + 1 == a.held[m];
    assert a'.held == a.held - multiset{m} && a'.delivered == a.delivered + multiset{m} && a'.lost == a.lost;
  }

  lemma MovesAway(a: Abstract, a': Abstract, ms: Bag)
    requires Moves(a, a', multiset{}, multiset{}, ms)
    ensures a'.queued == a.queued ==> Act(a, Lose(ms)) == Some(a')
    ensures a'.queued == a.queued && ms == multiset{} ==> Act(a, Skip) == Some(a')
    ensures forall m :: m in a.held && m !in a.queued && a'.queued == a.queued + {m} && ms == multiset{} ==> Act(a, Enqueue(m)) == Some(a')
  {
    assert forall m :: ms[m] <= a.held[m];
    assert a'.held == a.held - ms && a'.delivered == a.delivered && a'.lost == a.lost + ms;
    if ms == multiset{} {
      assert a'.held == a.held && a'.lost == a.lost;
    }
  }

  function Again(s: State, e: Event, c: Connection): Bag {
    if PushesAgain(s, e, c) then PushedRow(c, e) else multiset{}
  }

  lemma StepMoves(s: State, e: Event)
    requires Inv(s) && Step(s, e).Some? && !e.Open? && !e.Restart?
    ensures e.conn < |s.conns| && OwnStep(s, e, s.conns[e.conn]).Some?
    ensures Moves(Abstraction(s), Abstraction(Step(s, e).value),
                  Entering(s.conns[e.conn], OwnStep(s, e, s.conns[e.conn]).value) + Again(s, e, s.conns[e.conn]),
                  Handed(s.conns[e.conn], e), Loss(s.conns[e.conn], e))
  {
    hide Step, OwnStep, Abstraction, Inv, Entering, Handed, Loss, PushedRow, PushesAgain;
    StepLength(s, e);
    var c := s.conns[e.conn];
    var a, a' := Abstraction(s), Abstraction(Step(s, e).value);
    var entering := Entering(c, OwnStep(s, e, c).value) + Again(s, e, c);
    forall m: Message
      ensures a'.held[m] + Loss(c, e)[m] + Handed(c, e)[m] == a.held[m] + entering[m]
      ensures a'.delivered[m] == a.delivered[m] + Handed(c, e)[m]
      ensures a'.lost[m] == a.lost[m] + Loss(c, e)[m]
    {
      Movement(s, e, m);
    }
  }

  lemma EnteringUnknown(s: State, e: Event, c: Connection)
    requires e.Frame? && e.conn < |s.conns| && c == s.conns[e.conn] && FrameAction(c, e.conn, e.frame).Accept?
    ensures FrameAction(c, e.conn, e.frame).m.conn == e.conn && !Known(s, FrameAction(c, e.conn, e.frame).m)
  {
    hide Admit;
  }

  // ---------------------------------------------------------------- what was queued

  /** Only an INSERT queues. */
  lemma QueuedMoves(s: State, e: Event)
    requires Step(s, e).Some?
    ensures EverQueued(Step(s, e).value)
         == if e.Insert? && e.conn < |s.conns| && s.conns[e.conn].handler.Queueing? then EverQueued(s) + {s.conns[e.conn].handler.message}
            else EverQueued(s)
  {
    hide Step;
    TableChanges(s, e);
    if e.Insert? {
      var m := s.conns[e.conn].handler.message;
      var inserted := Step(s, e).value.inserted;
      assert inserted[|s.inserted|].message == m;
      assert forall i :: 0 <= i < |s.inserted| ==> inserted[i] == s.inserted[i];
    }
  }

  /** What a handler still holds was never queued. */
  lemma PendingNotQueued(s: State, k: nat)
    requires ConnectionsInv(s) && AcceptedInv(s) && OrderInv(s) && k < |s.conns| && !s.conns[k].handler.Idle?
    ensures s.conns[k].handler.message !in EverQueued(s)
  {
    hide Admit, ConnectionsInv, AcceptedInv, LiveMessages;
    HandlerKnown(s, k);
    var m := s.conns[k].handler.message;
    forall i | 0 <= i < |s.inserted| ensures s.inserted[i].message != m {
      assert Settled(s, RowMessages(s.inserted)[i]);
    }
  }

  lemma PendingHeld(s: State, k: nat)
    requires k < |s.conns| && !s.conns[k].handler.Idle?
    ensures s.conns[k].handler.message in Abstraction(s).held
  {
    hide Sum, Unwritten, QueueBag;
    SumMember(Held, s.conns, k, s.conns[k].handler.message);
  }

  /** A row that a drain pushes was queued. */
  lemma PushedRowQueued(s: State, e: Event, c: Connection)
    requires TableInv(s) && c in s.conns && PushesAgain(s, e, c)
    ensures c.drain.snapshot[c.drain.sent].message in EverQueued(s)
  {
    var r := c.drain.snapshot[c.drain.sent];
    assert SnapshotInv(s, c) && EverInserted(s, r);
  }

  // ---------------------------------------------------------------- the action of each step

  lemma FrameActionStep(s: State, e: Event)
    requires e.Frame? && Inv(s) && Step(s, e).Some? && forall m :: TotalOk(s, m)
    ensures Act(Abstraction(s), ActionOf(s, e)) == Some(Abstraction(Step(s, e).value))
  {
    hide Step, OwnStep, Inv, Sum, Held, Written, Dropped, QueueBag, EverQueued, Moves, Act, FrameAction, Known, Entering;
    StepMoves(s, e);
    QueuedMoves(s, e);
    var c := s.conns[e.conn];
    var a, a' := Abstraction(s), Abstraction(Step(s, e).value);
    var none: Bag := multiset{};
    FrameEntering(s, e, c);
    if FrameAction(c, e.conn, e.frame).Accept? {
      var m := FrameAction(c, e.conn, e.frame).m;
      EnteringUnknown(s, e, c);
      assert TotalOk(s, m);
      assert multiset{m} + none == multiset{m};
      MovesIn(a, a', m);
    } else {
      assert none + none == none;
      MovesAway(a, a', none);
    }
  }

  lemma WriteActionStep(s: State, e: Event)
    requires e.Write? && Inv(s) && Step(s, e).Some?
    ensures Act(Abstraction(s), ActionOf(s, e)) == Some(Abstraction(Step(s, e).value))
  {
    hide Step, OwnStep, Inv, Sum, Held, Written, Dropped, QueueBag, EverQueued, Moves, Act, Entering;
    StepMoves(s, e);
    QueuedMoves(s, e);
    NothingEnters(s, e, s.conns[e.conn]);
    WriteHandsOver(s, e.conn);
    var none: Bag := multiset{};
    assert none + none == none;
    MovesOut(Abstraction(s), Abstraction(Step(s, e).value), s.conns[e.conn].username, ItemMessage(s.conns[e.conn].pushed[s.conns[e.conn].written]));
  }

  lemma AgainActionStep(s: State, e: Event)
    requires Inv(s) && Step(s, e).Some? && !e.Open? && !e.Restart? && e.conn < |s.conns| && PushesAgain(s, e, s.conns[e.conn])
    ensures Act(Abstraction(s), ActionOf(s, e)) == Some(Abstraction(Step(s, e).value))
  {
    hide Step, OwnStep, Sum, Held, Written, Dropped, QueueBag, EverQueued, Moves, Act, Entering, TableInv, CoverageInv, AddressInv, RegistryInv, AcceptedInv, ConnectionsInv;
    StepMoves(s, e);
    QueuedMoves(s, e);
    var c := s.conns[e.conn];
    NothingEnters(s, e, c);
    PushedRowQueued(s, e, c);
    var none: Bag := multiset{};
    var m := c.drain.snapshot[c.drain.sent].message;
    assert none + multiset{m} == multiset{m};
    MovesIn(Abstraction(s), Abstraction(Step(s, e).value), m);
  }

  lemma InsertActionStep(s: State, e: Event)
    requires e.Insert? && Inv(s) && OrderInv(s) && Step(s, e).Some?
    ensures Act(Abstraction(s), ActionOf(s, e)) == Some(Abstraction(Step(s, e).value))
  {
    hide Step, OwnStep, Abstraction, Moves, Act, Entering, Admit, TableInv, CoverageInv, AddressInv, RegistryInv, AcceptedInv, ConnectionsInv, OrderInv;
    StepMoves(s, e);
    QueuedMoves(s, e);
    TableChanges(s, e);
    NothingEnters(s, e, s.conns[e.conn]);
    PendingNotQueued(s, e.conn);
    PendingHeld(s, e.conn);
    QueuedOf(s);
    QueuedOf(Step(s, e).value);
    var none: Bag := multiset{};
    assert none + none == none;
    MovesAway(Abstraction(s), Abstraction(Step(s, e).value), none);
  }

  lemma QueuedOf(s: State)
    ensures Abstraction(s).queued == EverQueued(s)
  {
  }

  lemma OtherActionStep(s: State, e: Event)
    requires Inv(s) && Step(s, e).Some? && !e.Open? && !e.Restart? && !e.Frame? && !e.Write? && !e.Insert?
    requires e.conn < |s.conns| && !PushesAgain(s, e, s.conns[e.conn])
    ensures Act(Abstraction(s), ActionOf(s, e)) == Some(Abstraction(Step(s, e).value))
  {
    hide Step, OwnStep, Abstraction, Inv, Moves, Act, Entering, Admit, Unwritten, PushesAgain;
    StepMoves(s, e);
    QueuedMoves(s, e);
    NothingEnters(s, e, s.conns[e.conn]);
    QueuedOf(s);
    QueuedOf(Step(s, e).value);
    var none: Bag := multiset{};
    assert none + none == none;
    MovesAway(Abstraction(s), Abstraction(Step(s, e).value), Loss(s.conns[e.conn], e));
  }

  lemma RestartActionStep(s: State)
    requires Step(s, Restart).Some?
    ensures Act(Abstraction(s), ActionOf(s, Restart)) == Some(Abstraction(Step(s, Restart).value))
  {
    hide Step, Abstraction, Sum;
    var a, a', all := Abstraction(s), Abstraction(Step(s, Restart).value), Sum(Held, s.conns);
    forall m: Message
      ensures a'.held[m] + all[m] == a.held[m] && a'.delivered[m] == a.delivered[m] && a'.lost[m] == a.lost[m] + all[m]
      ensures a'.queued == a.queued
    {
      RestartMovement(s, m);
    }
    RestartMovement(s, Message(0, 0, "", "", ""));
    assert a'.held == a.held - all && a'.delivered == a.delivered && a'.lost == a.lost + all && all <= a.held;
  }

  /** Every step is the abstract action it stands for. */
  lemma ActionStep(s: State, e: Event)
    requires Inv(s) && OrderInv(s) && Step(s, e).Some?
    requires forall m :: TotalOk(s, m)
    ensures Act(Abstraction(s), ActionOf(s, e)) == Some(Abstraction(Step(s, e).value))
  {
    hide Step, Abstraction, Inv, OrderInv, ConnectionAction, TotalOk, Act, PushesAgain;
    StepLength(s, e);
    match e {
      case Open(username) => OpenActionStep(s, username);
      case Restart => RestartActionStep(s);
      case Frame(_, _) => FrameActionStep(s, e);
      case Write(_) => WriteActionStep(s, e);
      case Insert(_) => InsertActionStep(s, e);
      case _ =>
        if PushesAgain(s, e, s.conns[e.conn]) {
          AgainActionStep(s, e);
        } else {
          OtherActionStep(s, e);
        }
    }
  }

  lemma OpenActionStep(s: State, username: string)
    requires Step(s, Open(username)).Some?
    ensures Act(Abstraction(s), ActionOf(s, Open(username))) == Some(Abstraction(Step(s, Open(username)).value))
  {
    hide Step, Abstraction;
    OpenMovement(s, username);
  }

  lemma InitiallyNothing()
    ensures Abstraction(INITIAL) == NOTHING
  {
  }

  /** Every run of the interleaved relay is a run of the abstract relay. */
  lemma Simulates(run: seq<Event>, s: State)
    requires Run(run) == Some(s)
    ensures ActAll(Actions(run)) == Some(Abstraction(s))
  {
    hide Run, ActAll, Actions, Abstraction;
    SimulatesRun(run);
  }

  lemma {:induction false} SimulatesRun(run: seq<Event>)
    requires Run(run).Some?
    ensures ActAll(Actions(run)) == Some(Abstraction(Run(run).value))
  {
    hide Run, Step, Inv, OrderInv, Act, ActionOf, Abstraction;
    InitialInv();
    if run == [] {
      InitiallyNothing();
    } else {
      RunLast(run);
      var before, e := run[..|run| - 1], run[|run| - 1];
      SimulatesRun(before);
      InvHolds(before);
      forall m ensures TotalOk(Run(before).value, m) {
        TotalHolds(before, m);
      }
      OrderHolds(before);
      ActionStep(Run(before).value, e);
      assert Actions(run)[..|Actions(before)|] == Actions(before);
    }
  }

  // ---------------------------------------------------------------- what follows

  /** A copy of a message comes into being only by accepting or duplicating it. */
  function Created(xs: seq<Action>): Bag {
    if xs == [] then multiset{}
    else
      Created(xs[..|xs| - 1])
      + (match xs[|xs| - 1]
         case Accept(m) => multiset{m}
         case Duplicate(m) => multiset{m}
         case _ => multiset{})
  }

  lemma ActBalance(a: Abstract, x: Action, m: Message)
    requires Act(a, x).Some?
    ensures var a' := Act(a, x).value;
            a'.held[m] + a'.delivered[m] + a'.lost[m]
            == a.held[m] + a.delivered[m] + a.lost[m] + (if x == Accept(m) || x == Duplicate(m) then 1 else 0)
  {
  }

  /** Conservation in the abstract relay: copies are held, delivered or lost, never dropped silently. */
  lemma {:induction false} Balance(xs: seq<Action>, a: Abstract, m: Message)
    requires ActAll(xs) == Some(a)
    ensures a.held[m] + a.delivered[m] + a.lost[m] == Created(xs)[m]
  {
    hide Act;
    if xs != [] {
      Balance(xs[..|xs| - 1], ActAll(xs[..|xs| - 1]).value, m);
      ActBalance(ActAll(xs[..|xs| - 1]).value, xs[|xs| - 1], m);
    }
  }

  /** Without duplication no message ever has two copies. */
  lemma {:induction false} OneCopy(xs: seq<Action>, a: Abstract, m: Message)
    requires ActAll(xs) == Some(a) && forall i :: 0 <= i < |xs| ==> !xs[i].Duplicate?
    ensures a.held[m] + a.delivered[m] + a.lost[m] <= 1
  {
    if xs != [] {
      OneCopy(xs[..|xs| - 1], ActAll(xs[..|xs| - 1]).value, m);
      ActBalance(ActAll(xs[..|xs| - 1]).value, xs[|xs| - 1], m);
    }
  }

  lemma FreshAction(s: State, e: Event)
    requires FreshInv(s)
    ensures !ActionOf(s, e).Duplicate?
  {
    hide FreshInv, Admit, Sum, Unwritten;
    if !e.Open? && !e.Restart? && e.conn < |s.conns| && e.Push? && CanPush(s.conns[e.conn]) {
      FreshPushIsFirst(s, e.conn);
    }
  }

  /** When every load is fresh, the duplicate action never occurs. */
  lemma {:induction false} FreshActions(run: seq<Event>)
    requires Run(run).Some? && FreshRun(run)
    ensures forall i :: 0 <= i < |Actions(run)| ==> !Actions(run)[i].Duplicate?
  {
    hide Run, Step, FreshInv, ActionOf, FreshEvent;
    if run != [] {
      RunLast(run);
      var before := run[..|run| - 1];
      FreshActions(before);
      FreshHolds(before);
      FreshAction(Run(before).value, run[|run| - 1]);
    }
  }

  /** In such a run every accepted message is exactly once on its way, written to a socket of its
      addressee, or lost; so it is delivered at most once. */
  lemma FreshDelivery(run: seq<Event>, s: State, m: Message)
    requires Run(run) == Some(s) && FreshRun(run)
    ensures var a := Abstraction(s); a.held[m] + a.delivered[m] + a.lost[m] == if Known(s, m) then 1 else 0
  {
    hide Run, Abstraction, ActAll, Actions, FreshRun;
    Simulates(run, s);
    FreshActions(run);
    OneCopy(Actions(run), Abstraction(s), m);
    TotalHolds(run, m);
  }
}
